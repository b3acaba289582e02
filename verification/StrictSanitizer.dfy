/**
 The strict repair of tool call pairs (`_sanitize_tool_pairs_strict`): the loops over
 index sets are proved against `Repair`, and `Repair` against the legality of the history.
 */
module StrictSanitizer {
  import opened Sequences
  import opened MessageHistory

  // A tool message counts as an answer when its id is truthy and one of those needed.
  predicate Answers(m: Msg, needed: set<CallId>) {
    m.Tool? && m.callId.Truthy() && m.callId in needed
  }

  function IfAnswers(needed: set<CallId>): Msg -> seq<Msg> {
    m => if Answers(m, needed) then [m] else []
  }

  function KeepAnswers(block: seq<Msg>, needed: set<CallId>): seq<Msg> {
    FlatMap(IfAnswers(needed), block)
  }

  function FoundIds(block: seq<Msg>, needed: set<CallId>): set<CallId> {
    set m | m in block && Answers(m, needed) :: m.callId
  }

  // An assistant message without its calls; it vanishes when no text is left.
  function Stripped(m: Msg): seq<Msg> {
    if m.text != "" then [AI(m.text, [])] else []
  }

  // A caller with the tool block behind it: kept with its answers when the block answers
  // every call, reduced to its text otherwise.
  function RepairUnit(m: Msg, block: seq<Msg>): seq<Msg> {
    if FoundIds(block, m.Needed()) == m.Needed() then [m] + KeepAnswers(block, m.Needed())
    else Stripped(m)
  }

  function Repair(ms: seq<Msg>): seq<Msg>
    decreases |ms|
  {
    if ms == [] then []
    else if ms[0].Caller() then
      var n := ToolRun(ms[1..]);
      RepairUnit(ms[0], ms[1..1 + n]) + Repair(ms[1 + n..])
    else if ms[0].Tool? then Repair(ms[1..])
    else [ms[0]] + Repair(ms[1..])
  }

  /* ----- the loops of the source ----- */

  // What the rebuilding loop emits for one index.
  function Emit(ms: seq<Msg>, valid: set<nat>, strip: set<nat>): nat -> seq<Msg> {
    (k: nat) =>
      if k >= |ms| || (ms[k].Tool? && k !in valid) then []
      else if k in strip then Stripped(ms[k])
      else [ms[k]]
  }

  function Rebuild(ms: seq<Msg>, valid: set<nat>, strip: set<nat>, lo: nat, hi: nat): seq<Msg>
    requires lo <= hi <= |ms|
  {
    FlatMap(Emit(ms, valid, strip), Range(lo, hi))
  }

  lemma RebuildSplit(ms: seq<Msg>, valid: set<nat>, strip: set<nat>, lo: nat, mid: nat, hi: nat)
    requires lo <= mid <= hi <= |ms|
    ensures Rebuild(ms, valid, strip, lo, hi)
         == Rebuild(ms, valid, strip, lo, mid) + Rebuild(ms, valid, strip, mid, hi)
  {
    assert Range(lo, hi) == Range(lo, mid) + Range(mid, hi);
    FlatMapConcat(Emit(ms, valid, strip), Range(lo, mid), Range(mid, hi));
  }

  lemma RebuildOne(ms: seq<Msg>, valid: set<nat>, strip: set<nat>, k: nat)
    requires k < |ms|
    ensures Rebuild(ms, valid, strip, k, k + 1) == Emit(ms, valid, strip)(k)
  {
    assert Range(k, k + 1) == [k];
    FlatMapSingle(Emit(ms, valid, strip), k);
  }

  // Only the marks inside a range matter for it.
  lemma RebuildFrame(ms: seq<Msg>, v1: set<nat>, s1: set<nat>, v2: set<nat>, s2: set<nat>, hi: nat)
    requires hi <= |ms|
    requires forall k: nat | k < hi :: (k in v1 <==> k in v2) && (k in s1 <==> k in s2)
    ensures Rebuild(ms, v1, s1, 0, hi) == Rebuild(ms, v2, s2, 0, hi)
  {
    FlatMapPointwise(Emit(ms, v1, s1), Range(0, hi), Emit(ms, v2, s2), Range(0, hi));
  }

  // The marks of one unit, from its caller at i to the end j of its block.
  ghost predicate Marked(ms: seq<Msg>, valid: set<nat>, strip: set<nat>, i: nat, j: nat)
    requires i < j <= |ms|
  {
    var needed := ms[i].Needed();
    if FoundIds(ms[i + 1..j], needed) == needed then
      i !in strip && forall k: nat | i < k < j :: k !in strip && (k in valid <==> Answers(ms[k], needed))
    else
      i in strip && forall k: nat | i < k < j :: k !in valid
  }

  lemma RebuildAnswers(ms: seq<Msg>, valid: set<nat>, strip: set<nat>, lo: nat, hi: nat, needed: set<CallId>)
    requires lo <= hi <= |ms|
    requires forall k: nat | lo <= k < hi :: ms[k].Tool? && k !in strip && (k in valid <==> Answers(ms[k], needed))
    ensures Rebuild(ms, valid, strip, lo, hi) == KeepAnswers(ms[lo..hi], needed)
  {
    var range, block := Range(lo, hi), ms[lo..hi];
    forall n | 0 <= n < |range| ensures Emit(ms, valid, strip)(range[n]) == IfAnswers(needed)(block[n]) {
      assert range[n] == lo + n && block[n] == ms[lo + n];
    }
    hide Emit, Answers;
    FlatMapPointwise(Emit(ms, valid, strip), range, IfAnswers(needed), block);
  }

  lemma RebuildNothing(ms: seq<Msg>, valid: set<nat>, strip: set<nat>, lo: nat, hi: nat)
    requires lo <= hi <= |ms| && forall k: nat | lo <= k < hi :: ms[k].Tool? && k !in valid
    ensures Rebuild(ms, valid, strip, lo, hi) == []
  {
    FlatMapEmpty(Emit(ms, valid, strip), Range(lo, hi));
  }

  lemma RebuildMarkedBlock(ms: seq<Msg>, valid: set<nat>, strip: set<nat>, i: nat, j: nat)
    requires i < j <= |ms|
    requires forall k: nat | i < k < j :: ms[k].Tool?
    requires Marked(ms, valid, strip, i, j)
    ensures var block := ms[i + 1..j];
      Rebuild(ms, valid, strip, i + 1, j)
        == if FoundIds(block, ms[i].Needed()) == ms[i].Needed() then KeepAnswers(block, ms[i].Needed()) else []
  {
    hide Rebuild, KeepAnswers, FoundIds, Answers;
    if FoundIds(ms[i + 1..j], ms[i].Needed()) == ms[i].Needed() {
      RebuildAnswers(ms, valid, strip, i + 1, j, ms[i].Needed());
    } else {
      RebuildNothing(ms, valid, strip, i + 1, j);
    }
  }

  // Rebuilding a marked unit repairs it.
  lemma RebuildMarked(ms: seq<Msg>, valid: set<nat>, strip: set<nat>, i: nat, j: nat)
    requires i < j <= |ms| && ms[i].Caller()
    requires forall k: nat | i < k < j :: ms[k].Tool?
    requires Marked(ms, valid, strip, i, j)
    ensures Rebuild(ms, valid, strip, i, j) == RepairUnit(ms[i], ms[i + 1..j])
  {
    hide Rebuild;
    RebuildMarkedBlock(ms, valid, strip, i, j);
    RebuildSplit(ms, valid, strip, i, i + 1, j);
    RebuildOne(ms, valid, strip, i);
  }

  // What the source adds to the two index sets marks the unit and nothing before it.
  lemma UnitIsMarked(ms: seq<Msg>, v0: set<nat>, s0: set<nat>, i: nat, j: nat, toolIndices: set<nat>, complete: bool)
    requires i < j <= |ms| && ms[i].Caller() && (forall k: nat | i < k < j :: ms[k].Tool?)
    requires (forall k | k in v0 :: k < i) && (forall k | k in s0 :: k < i)
    requires toolIndices == set k: nat | i < k < j && Answers(ms[k], ms[i].Needed())
    requires complete == (FoundIds(ms[i + 1..j], ms[i].Needed()) == ms[i].Needed())
    ensures var v1, s1 := if complete then v0 + toolIndices else v0, if complete then s0 else s0 + {i};
      && Rebuild(ms, v1, s1, i, j) == RepairUnit(ms[i], ms[i + 1..j])
      && Rebuild(ms, v1, s1, 0, i) == Rebuild(ms, v0, s0, 0, i)
  {
    var v1, s1 := if complete then v0 + toolIndices else v0, if complete then s0 else s0 + {i};
    RebuildMarked(ms, v1, s1, i, j);
    RebuildFrame(ms, v1, s1, v0, s0, i);
  }

  // The scan behind the caller at i: its tool block, the ids found and their indices.
  method ScanBlock(ms: seq<Msg>, i: nat) returns (j: nat, found: set<CallId>, toolIndices: set<nat>)
    requires i < |ms| && ms[i].Caller()
    ensures i < j <= |ms| && AllTools(ms[i + 1..j]) && (j == |ms| || !ms[j].Tool?)
    ensures forall k: nat | i < k < j :: ms[k].Tool?
    ensures found == FoundIds(ms[i + 1..j], ms[i].Needed())
    ensures toolIndices == set k: nat | i < k < j && Answers(ms[k], ms[i].Needed())
  {
    var needed := ms[i].Needed();
    j, found, toolIndices := i + 1, {}, {};
    while j < |ms| && ms[j].Tool?
      invariant i + 1 <= j <= |ms|
      invariant forall k: nat | i < k < j :: ms[k].Tool?
      invariant found == FoundIds(ms[i + 1..j], needed)
      invariant toolIndices == set k: nat | i < k < j && Answers(ms[k], needed)
    {
      FoundSnoc(ms[i + 1..j], ms[j], needed);
      assert ms[i + 1..j + 1] == ms[i + 1..j] + [ms[j]];
      if ms[j].callId.Truthy() && ms[j].callId in needed {
        found := found + {ms[j].callId};
        toolIndices := toolIndices + {j};
      }
      j := j + 1;
    }
  }

  lemma FoundSnoc(block: seq<Msg>, m: Msg, needed: set<CallId>)
    ensures FoundIds(block + [m], needed)
         == FoundIds(block, needed) + if Answers(m, needed) then {m.callId} else {}
  {}

  // One round of the marking loop: at i the rebuilt prefix and the repair of the rest make
  // up the repair of the whole, and so they do at the next index.
  lemma MarkCaller(ms: seq<Msg>, v0: set<nat>, s0: set<nat>, i: nat, j: nat, v1: set<nat>, s1: set<nat>)
    requires i < j <= |ms| && ms[i].Caller() && AllTools(ms[i + 1..j]) && (j == |ms| || !ms[j].Tool?)
    requires Rebuild(ms, v1, s1, i, j) == RepairUnit(ms[i], ms[i + 1..j])
    requires Rebuild(ms, v1, s1, 0, i) == Rebuild(ms, v0, s0, 0, i)
    ensures Rebuild(ms, v1, s1, 0, j) + Repair(ms[j..]) == Rebuild(ms, v0, s0, 0, i) + Repair(ms[i..])
  {
    hide Rebuild, Repair, RepairUnit;
    var before, unit, after := Rebuild(ms, v0, s0, 0, i), RepairUnit(ms[i], ms[i + 1..j]), Repair(ms[j..]);
    RebuildSplit(ms, v1, s1, 0, i, j);
    assert ms[i..] == [ms[i]] + ms[i + 1..j] + ms[j..];
    RepairFront(ms[i], ms[i + 1..j], ms[j..]);
    assert (before + unit) + after == before + (unit + after);
  }

  lemma RepairSingle(ms: seq<Msg>)
    requires ms != [] && !ms[0].Caller()
    ensures Repair(ms) == (if ms[0].Tool? then [] else [ms[0]]) + Repair(ms[1..])
  {}

  lemma PassSingle(ms: seq<Msg>, valid: set<nat>, strip: set<nat>, i: nat)
    requires i < |ms| && !ms[i].Caller() && i !in valid && i !in strip
    ensures Rebuild(ms, valid, strip, 0, i + 1) + Repair(ms[i + 1..])
         == Rebuild(ms, valid, strip, 0, i) + Repair(ms[i..])
  {
    hide Rebuild, Repair;
    var before, one, after := Rebuild(ms, valid, strip, 0, i), Emit(ms, valid, strip)(i), Repair(ms[i + 1..]);
    RepairSingle(ms[i..]);
    assert ms[i..][1..] == ms[i + 1..];
    RebuildSplit(ms, valid, strip, 0, i, i + 1);
    RebuildOne(ms, valid, strip, i);
    assert (before + one) + after == before + (one + after);
  }

  // The first loop: marks the indices of complete blocks and of callers to strip.
  method MarkIndices(messages: seq<Msg>) returns (valid: set<nat>, strip: set<nat>)
    ensures Rebuild(messages, valid, strip, 0, |messages|) == Repair(messages)
  {
    hide Rebuild, Repair, RepairUnit;
    valid, strip := {}, {};
    var i := 0;
    assert messages[0..] == messages;
    NothingRebuilt(messages, valid, strip);
    while i < |messages|
      invariant i <= |messages|
      invariant (forall k | k in valid :: k < i) && (forall k | k in strip :: k < i)
      invariant Rebuild(messages, valid, strip, 0, i) + Repair(messages[i..]) == Repair(messages)
    {
      if messages[i].Caller() {
        var j, found, toolIndices := ScanBlock(messages, i);
        var complete := found == messages[i].Needed();
        UnitIsMarked(messages, valid, strip, i, j, toolIndices, complete);
        ghost var v0, s0 := valid, strip;
        if complete {
          valid := valid + toolIndices;
        } else {
          strip := strip + {i};
        }
        MarkCaller(messages, v0, s0, i, j, valid, strip);
        i := j;
      } else {
        PassSingle(messages, valid, strip, i);
        i := i + 1;
      }
    }
    assert messages[i..] == [];
    RepairNothing();
  }

  lemma NothingRebuilt(ms: seq<Msg>, valid: set<nat>, strip: set<nat>)
    ensures Rebuild(ms, valid, strip, 0, 0) == []
  {}

  lemma RepairNothing()
    ensures Repair([]) == []
  {}

  method SanitizeStrict(messages: seq<Msg>) returns (rebuilt: seq<Msg>)
    ensures rebuilt == Repair(messages)
  {
    if messages == [] {
      return messages;
    }
    var valid, strip := MarkIndices(messages);
    rebuilt := [];
    for idx := 0 to |messages|
      invariant rebuilt == Rebuild(messages, valid, strip, 0, idx)
    {
      RebuildSplit(messages, valid, strip, 0, idx, idx + 1);
      RebuildOne(messages, valid, strip, idx);
      if messages[idx].Tool? && idx !in valid {
      } else if idx in strip {
        rebuilt := rebuilt + Stripped(messages[idx]);
      } else {
        rebuilt := rebuilt + [messages[idx]];
      }
    }
  }

  /* ----- what the repair guarantees ----- */

  lemma RepairFront(m: Msg, block: seq<Msg>, rest: seq<Msg>)
    requires m.Caller() && AllTools(block) && (rest == [] || !rest[0].Tool?)
    ensures Repair([m] + block + rest) == RepairUnit(m, block) + Repair(rest)
  {
    var ms := [m] + block + rest;
    ToolRunConcat(block, rest);
    assert ms[1..] == block + rest && ms[1..1 + |block|] == block && ms[1 + |block|..] == rest;
  }

  // A list that starts with a caller, split into the caller, its block and the rest.
  lemma SplitUnit(ms: seq<Msg>) returns (block: seq<Msg>, rest: seq<Msg>)
    requires ms != [] && ms[0].Caller()
    ensures ms == [ms[0]] + block + rest && AllTools(block) && (rest == [] || !rest[0].Tool?)
    ensures block == BlockAfter(ms, 0)
  {
    var n := ToolRun(ms[1..]);
    block, rest := ms[1..1 + n], ms[1 + n..];
    assert forall k | 0 <= k < n :: block[k] == ms[1..][k];
  }

  lemma KeepAnswersIds(block: seq<Msg>, needed: set<CallId>)
    ensures AllTools(KeepAnswers(block, needed))
    ensures AnsweredIds(KeepAnswers(block, needed)) == FoundIds(block, needed)
  {
    var kept := KeepAnswers(block, needed);
    FlatMapMembers(IfAnswers(needed), block);
    forall m ensures m in kept <==> m in block && Answers(m, needed) {
      if m in kept { var x :| x in block && m in IfAnswers(needed)(x); }
      if m in block && Answers(m, needed) { assert m in IfAnswers(needed)(m); }
    }
  }

  lemma PlainPrefix(m: Msg, rest: seq<Msg>)
    requires !m.Tool? && !m.Caller() && BlockWF(rest)
    ensures BlockWF([m] + rest)
  {
    assert ([m] + rest)[1..] == rest;
  }

  lemma RepairUnitIsLegal(m: Msg, block: seq<Msg>, rest: seq<Msg>)
    requires m.Caller() && BlockWF(rest)
    ensures BlockWF(RepairUnit(m, block) + rest)
  {
    var needed := m.Needed();
    if FoundIds(block, needed) == needed {
      KeepAnswersIds(block, needed);
      assert forall c | c in needed :: c in FoundIds(block, needed);
      Compose(m, KeepAnswers(block, needed), rest);
    } else if m.text != "" {
      PlainPrefix(AI(m.text, []), rest);
    } else {
      assert [] + rest == rest;
    }
  }

  // The result is legal, whatever the input.
  lemma {:induction false} RepairIsLegal(ms: seq<Msg>)
    ensures BlockWF(Repair(ms))
    decreases |ms|
  {
    if ms == [] {
    } else if ms[0].Caller() {
      var block, rest := SplitUnit(ms);
      RepairIsLegal(rest);
      RepairFront(ms[0], block, rest);
      RepairUnitIsLegal(ms[0], block, Repair(rest));
    } else {
      RepairIsLegal(ms[1..]);
      if !ms[0].Tool? { PlainPrefix(ms[0], Repair(ms[1..])); }
    }
  }

  lemma ToolsAnswer(block: seq<Msg>)
    requires AllTools(block)
    ensures AnsweredIds(block) == {} <==> block == []
  {
    if block != [] { assert block[0].callId in AnsweredIds(block); }
  }

  lemma UnitAnswersAll(m: Msg, block: seq<Msg>)
    requires Unit(m, block)
    ensures KeepAnswers(block, m.Needed()) == block
    ensures FoundIds(block, m.Needed()) == m.Needed()
    ensures !m.Caller() ==> block == []
  {
    forall t | t in block ensures Answers(t, m.Needed()) {
      assert t.callId in AnsweredIds(block);
    }
    FlatMapIdentity(IfAnswers(m.Needed()), block);
    assert FoundIds(block, m.Needed()) == AnsweredIds(block);
    ToolsAnswer(block);
  }

  // A legal list is left alone.
  lemma {:induction false} RepairIdentity(ms: seq<Msg>)
    requires BlockWF(ms)
    ensures Repair(ms) == ms
    decreases |ms|
  {
    if ms != [] {
      var m, block, rest := Decompose(ms);
      RepairIdentity(rest);
      UnitAnswersAll(m, block);
      if m.Caller() {
        RepairFront(m, block, rest);
      } else {
        assert ms[1..] == rest;
      }
    }
  }

  // Legal lists are exactly the fixed points of the repair.
  lemma RepairFixedPoints(ms: seq<Msg>)
    ensures Legal(Repair(ms))
    ensures Repair(ms) == ms <==> Legal(ms)
    ensures Repair(Repair(ms)) == Repair(ms)
  {
    RepairIsLegal(ms);
    RepairIdentity(Repair(ms));
    BlockWFIsLegal(Repair(ms));
    BlockWFIsLegal(ms);
    if BlockWF(ms) { RepairIdentity(ms); }
  }

  // What the user and the model said: the non-tool messages with text, without calls.
  function Spoken(m: Msg): seq<Msg> {
    if m.Tool? || m.text == "" then [] else if m.AI? then [AI(m.text, [])] else [m]
  }

  function Speech(ms: seq<Msg>): seq<Msg> {
    FlatMap(Spoken, ms)
  }

  lemma SpeechOfUnit(m: Msg, block: seq<Msg>)
    requires AllTools(block)
    ensures Speech([m] + block) == Spoken(m)
  {
    FlatMapEmpty(Spoken, block);
    FlatMapCons(Spoken, m, block);
  }

  lemma SpeechOfRepairedUnit(m: Msg, block: seq<Msg>)
    requires m.Caller() && AllTools(block)
    ensures Speech(RepairUnit(m, block)) == Spoken(m)
  {
    KeepAnswersIds(block, m.Needed());
    SpeechOfUnit(m, KeepAnswers(block, m.Needed()));
    FlatMapSingle(Spoken, AI(m.text, []));
  }

  // No text said by anyone but a tool is lost, added or reordered.
  lemma {:induction false} RepairKeepsSpeech(ms: seq<Msg>)
    ensures Speech(Repair(ms)) == Speech(ms)
    decreases |ms|
  {
    if ms == [] {
    } else if ms[0].Caller() {
      var block, rest := SplitUnit(ms);
      RepairKeepsSpeech(rest);
      RepairFront(ms[0], block, rest);
      FlatMapConcat(Spoken, [ms[0]] + block, rest);
      SpeechOfUnit(ms[0], block);
      FlatMapConcat(Spoken, RepairUnit(ms[0], block), Repair(rest));
      SpeechOfRepairedUnit(ms[0], block);
    } else {
      RepairKeepsSpeech(ms[1..]);
      FlatMapCons(Spoken, ms[0], Repair(ms[1..]));
    }
  }

  function IfCaller(m: Msg): seq<Msg> {
    if m.Caller() then [m] else []
  }

  // The messages that still carry calls.
  function Callers(ms: seq<Msg>): seq<Msg> {
    FlatMap(IfCaller, ms)
  }

  // The calls of ms[i] are truthy and each is answered in the block right behind. (The
  // block may hold foreign answers as well; the repair drops those.)
  ghost predicate FullyAnswered(ms: seq<Msg>, i: nat)
    requires i < |ms|
  {
    && ms[i].Needed() <= AnsweredIds(BlockAfter(ms, i))
    && forall c | c in ms[i].Needed() :: c.Truthy()
  }

  ghost function AnsweredCallers(ms: seq<Msg>): seq<Msg> {
    if ms == [] then []
    else (if ms[0].Caller() && FullyAnswered(ms, 0) then [ms[0]] else []) + AnsweredCallers(ms[1..])
  }

  lemma {:induction false} ToolsAreNoCallers(block: seq<Msg>, rest: seq<Msg>)
    requires AllTools(block)
    ensures AnsweredCallers(block + rest) == AnsweredCallers(rest)
  {
    if block == [] {
      assert block + rest == rest;
    } else {
      assert (block + rest)[1..] == block[1..] + rest;
      assert (block + rest)[0] == block[0] && block[0] in block;
      assert forall m | m in block[1..] :: m in block;
      ToolsAreNoCallers(block[1..], rest);
    }
  }

  lemma FoundIsAnswered(m: Msg, block: seq<Msg>)
    requires AllTools(block)
    ensures FoundIds(block, m.Needed()) == m.Needed()
       <==> m.Needed() <= AnsweredIds(block) && forall c | c in m.Needed() :: c.Truthy()
  {
    if m.Needed() <= AnsweredIds(block) && forall c | c in m.Needed() :: c.Truthy() {
      forall c | c in m.Needed() ensures c in FoundIds(block, m.Needed()) {
        assert c in AnsweredIds(block);
      }
    }
  }

  lemma CallersOfRepairedUnit(m: Msg, block: seq<Msg>)
    requires m.Caller()
    ensures Callers(RepairUnit(m, block)) == if FoundIds(block, m.Needed()) == m.Needed() then [m] else []
  {
    var kept := KeepAnswers(block, m.Needed());
    KeepAnswersIds(block, m.Needed());
    FlatMapEmpty(IfCaller, kept);
    FlatMapCons(IfCaller, m, kept);
    FlatMapEmpty(IfCaller, Stripped(m));
  }

  lemma AnsweredCallersFront(ms: seq<Msg>, block: seq<Msg>, rest: seq<Msg>)
    requires ms != [] && ms == [ms[0]] + block + rest && ms[0].Caller() && AllTools(block) && block == BlockAfter(ms, 0)
    ensures AnsweredCallers(ms)
         == (if FoundIds(block, ms[0].Needed()) == ms[0].Needed() then [ms[0]] else []) + AnsweredCallers(rest)
  {
    assert ms[1..] == block + rest;
    ToolsAreNoCallers(block, rest);
    FoundIsAnswered(ms[0], block);
  }

  // The repair is minimal: it strips the calls of exactly those messages whose block
  // leaves a call unanswered.
  lemma {:induction false} RepairKeepsAnsweredCallers(ms: seq<Msg>)
    ensures Callers(Repair(ms)) == AnsweredCallers(ms)
    decreases |ms|
  {
    if ms == [] {
    } else if ms[0].Caller() {
      var block, rest := SplitUnit(ms);
      RepairKeepsAnsweredCallers(rest);
      AnsweredCallersFront(ms, block, rest);
      RepairFront(ms[0], block, rest);
      hide Repair, RepairUnit, AnsweredCallers, FlatMap;
      CallersOfRepairedUnit(ms[0], block);
      FlatMapConcat(IfCaller, RepairUnit(ms[0], block), Repair(rest));
    } else {
      RepairKeepsAnsweredCallers(ms[1..]);
      FlatMapCons(IfCaller, ms[0], Repair(ms[1..]));
    }
  }

  function IfTool(m: Msg): seq<Msg> {
    if m.Tool? then [m] else []
  }

  // One of the calls is answered by this message.
  function IfNeeded(needed: set<CallId>): Msg -> seq<Msg> {
    (m: Msg) => if m.Tool? && m.callId in needed then [m] else []
  }

  // The answers that belong to the fully answered messages, block by block.
  ghost function AnswersKept(ms: seq<Msg>): seq<Msg> {
    if ms == [] then []
    else
      (if ms[0].Caller() && FullyAnswered(ms, 0) then FlatMap(IfNeeded(ms[0].Needed()), BlockAfter(ms, 0)) else [])
      + AnswersKept(ms[1..])
  }

  lemma {:induction false} ToolsKeepNoAnswers(block: seq<Msg>, rest: seq<Msg>)
    requires AllTools(block)
    ensures AnswersKept(block + rest) == AnswersKept(rest)
  {
    if block == [] {
      assert block + rest == rest;
    } else {
      assert (block + rest)[1..] == block[1..] + rest;
      assert (block + rest)[0] == block[0] && block[0] in block;
      assert forall m | m in block[1..] :: m in block;
      ToolsKeepNoAnswers(block[1..], rest);
    }
  }

  lemma ToolsOfRepairedUnit(m: Msg, block: seq<Msg>)
    requires m.Caller() && AllTools(block)
    ensures FlatMap(IfTool, RepairUnit(m, block)) ==
            if m.Needed() <= AnsweredIds(block) && (forall c | c in m.Needed() :: c.Truthy())
            then FlatMap(IfNeeded(m.Needed()), block) else []
  {
    FoundIsAnswered(m, block);
    if FoundIds(block, m.Needed()) == m.Needed() {
      var kept := KeepAnswers(block, m.Needed());
      KeepAnswersIds(block, m.Needed());
      FlatMapCons(IfTool, m, kept);
      forall t | t in kept ensures IfTool(t) == [t] {}
      FlatMapIdentity(IfTool, kept);
      FlatMapPointwise(IfAnswers(m.Needed()), block, IfNeeded(m.Needed()), block);
    } else {
      FlatMapEmpty(IfTool, Stripped(m));
    }
  }

  lemma AnswersKeptFront(ms: seq<Msg>, block: seq<Msg>, rest: seq<Msg>)
    requires ms != [] && ms == [ms[0]] + block + rest && ms[0].Caller() && AllTools(block) && block == BlockAfter(ms, 0)
    ensures AnswersKept(ms) ==
            (if ms[0].Needed() <= AnsweredIds(block) && (forall c | c in ms[0].Needed() :: c.Truthy())
             then FlatMap(IfNeeded(ms[0].Needed()), block) else []) + AnswersKept(rest)
  {
    assert ms[1..] == block + rest;
    ToolsKeepNoAnswers(block, rest);
    hide FlatMap, BlockAfter;
  }

  // And it keeps exactly the answers that stand behind these messages, all of them and in
  // their order.
  lemma {:induction false} RepairKeepsAnswers(ms: seq<Msg>)
    ensures FlatMap(IfTool, Repair(ms)) == AnswersKept(ms)
    decreases |ms|
  {
    if ms == [] {
    } else if ms[0].Caller() {
      var block, rest := SplitUnit(ms);
      RepairKeepsAnswers(rest);
      AnswersKeptFront(ms, block, rest);
      RepairFront(ms[0], block, rest);
      hide Repair, RepairUnit, AnswersKept, FlatMap;
      ToolsOfRepairedUnit(ms[0], block);
      FlatMapConcat(IfTool, RepairUnit(ms[0], block), Repair(rest));
    } else {
      RepairKeepsAnswers(ms[1..]);
      FlatMapCons(IfTool, ms[0], Repair(ms[1..]));
    }
  }
}
