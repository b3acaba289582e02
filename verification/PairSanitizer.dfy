/**
 The global repair of tool call pairs (`_sanitize_tool_pairs`): ids are matched over the
 whole list, without looking at positions.
 */
module PairSanitizer {
  import opened Sequences
  import opened MessageHistory
  import opened StrictSanitizer

  // Assistant messages with a call that no tool message answers lose their calls.
  function IfComplete(answered: set<CallId>): Msg -> seq<Msg> {
    (m: Msg) => if m.Caller() && !(m.Needed() <= answered) then Stripped(m) else [m]
  }

  function StripIncomplete(ms: seq<Msg>, answered: set<CallId>): seq<Msg> {
    FlatMap(IfComplete(answered), ms)
  }

  // Tool messages that answer no call are dropped.
  function IfCalled(called: set<CallId>): Msg -> seq<Msg> {
    (m: Msg) => if m.Tool? && m.callId !in called then [] else [m]
  }

  function DropOrphans(ms: seq<Msg>, called: set<CallId>): seq<Msg> {
    FlatMap(IfCalled(called), ms)
  }

  function Mend(ms: seq<Msg>): seq<Msg> {
    var stripped := StripIncomplete(ms, AnsweredIds(ms));
    DropOrphans(stripped, CalledIds(stripped))
  }

  /* ----- the loops of the source ----- */

  method CollectToolIds(ms: seq<Msg>) returns (ids: set<CallId>)
    ensures ids == AnsweredIds(ms)
  {
    ids := {};
    for i := 0 to |ms|
      invariant ids == AnsweredIds(ms[..i])
    {
      assert ms[..i + 1] == ms[..i] + [ms[i]];
      if ms[i].Tool? { ids := ids + {ms[i].callId}; }
    }
    assert ms[..|ms|] == ms;
  }

  method CollectCallIds(ms: seq<Msg>) returns (ids: set<CallId>)
    ensures ids == CalledIds(ms)
  {
    ids := {};
    for i := 0 to |ms|
      invariant ids == CalledIds(ms[..i])
    {
      assert ms[..i + 1] == ms[..i] + [ms[i]];
      IdsConcat(ms[..i], [ms[i]]);
      assert CalledIds([ms[i]]) == ms[i].Needed();
      if ms[i].Caller() { ids := ids + ms[i].Needed(); }
    }
    assert ms[..|ms|] == ms;
  }

  method SanitizePairs(messages: seq<Msg>) returns (final: seq<Msg>)
    ensures final == Mend(messages)
  {
    var toolIds := CollectToolIds(messages);
    var sanitized := [];
    for i := 0 to |messages|
      invariant sanitized == StripIncomplete(messages[..i], toolIds)
    {
      FlatMapStep(IfComplete(toolIds), messages, i);
      var msg := messages[i];
      if msg.Caller() && exists c :: c in msg.calls && c !in toolIds {
        if msg.text != "" { sanitized := sanitized + [AI(msg.text, [])]; }
      } else {
        sanitized := sanitized + [msg];
      }
    }
    assert messages[..|messages|] == messages;
    var callIds := CollectCallIds(sanitized);
    final := [];
    for i := 0 to |sanitized|
      invariant final == DropOrphans(sanitized[..i], callIds)
    {
      FlatMapStep(IfCalled(callIds), sanitized, i);
      if !(sanitized[i].Tool? && sanitized[i].callId !in callIds) {
        final := final + [sanitized[i]];
      }
    }
    assert sanitized[..|sanitized|] == sanitized;
  }

  /* ----- what the repair guarantees ----- */

  // Called and answered ids match, regardless of where the messages stand.
  predicate PairClosed(ms: seq<Msg>) {
    CalledIds(ms) == AnsweredIds(ms)
  }

  lemma StripIncompleteIds(ms: seq<Msg>, answered: set<CallId>)
    ensures AnsweredIds(StripIncomplete(ms, answered)) == AnsweredIds(ms)
    ensures CalledIds(StripIncomplete(ms, answered)) <= answered
  {
    var f, out := IfComplete(answered), StripIncomplete(ms, answered);
    FlatMapMembers(f, ms);
    forall m | m in out && m.Tool? ensures m in ms {
      var x :| x in ms && m in f(x);
    }
    forall m | m in ms && m.Tool? ensures m in out {
      assert m in f(m);
    }
    forall m | m in out && m.AI? ensures m.Needed() <= answered {
      var x :| x in ms && m in f(x);
    }
  }

  lemma DropOrphansIds(ms: seq<Msg>, called: set<CallId>)
    ensures AnsweredIds(DropOrphans(ms, called)) == AnsweredIds(ms) * called
    ensures CalledIds(DropOrphans(ms, called)) == CalledIds(ms)
  {
    var f, out := IfCalled(called), DropOrphans(ms, called);
    FlatMapMembers(f, ms);
    forall m ensures m in out <==> m in ms && (m.Tool? ==> m.callId in called) {
      if m in out { var x :| x in ms && m in f(x); }
      if m in ms && (m.Tool? ==> m.callId in called) { assert m in f(m); }
    }
  }

  lemma StripIncompleteKeeps(ms: seq<Msg>, answered: set<CallId>)
    requires CalledIds(ms) <= answered
    ensures StripIncomplete(ms, answered) == ms
  {
    forall m | m in ms ensures IfComplete(answered)(m) == [m] {
      assert forall c | m.AI? && c in m.calls :: c in CalledIds(ms);
    }
    FlatMapIdentity(IfComplete(answered), ms);
  }

  lemma DropOrphansKeeps(ms: seq<Msg>, called: set<CallId>)
    requires AnsweredIds(ms) <= called
    ensures DropOrphans(ms, called) == ms
  {
    forall m | m in ms ensures IfCalled(called)(m) == [m] {
      assert m.Tool? ==> m.callId in AnsweredIds(ms);
    }
    FlatMapIdentity(IfCalled(called), ms);
  }

  lemma MendCloses(ms: seq<Msg>)
    ensures PairClosed(Mend(ms))
  {
    var stripped := StripIncomplete(ms, AnsweredIds(ms));
    StripIncompleteIds(ms, AnsweredIds(ms));
    DropOrphansIds(stripped, CalledIds(stripped));
  }

  lemma MendIdentity(ms: seq<Msg>)
    requires PairClosed(ms)
    ensures Mend(ms) == ms
  {
    StripIncompleteKeeps(ms, AnsweredIds(ms));
    DropOrphansKeeps(ms, CalledIds(ms));
  }

  // The result pairs every call with an answer and every answer with a call; lists that
  // do so already are exactly the fixed points.
  lemma MendFixedPoints(ms: seq<Msg>)
    ensures PairClosed(Mend(ms))
    ensures Mend(ms) == ms <==> PairClosed(ms)
    ensures Mend(Mend(ms)) == Mend(ms)
  {
    MendCloses(ms);
    if PairClosed(ms) { MendIdentity(ms); }
    MendIdentity(Mend(ms));
  }

  // A legal history passes through the global repair unchanged, and so does every result
  // of the strict repair.
  lemma LegalIsMended(ms: seq<Msg>)
    ensures Legal(ms) ==> Mend(ms) == ms
    ensures Mend(Repair(ms)) == Repair(ms)
  {
    RepairIsLegal(ms);
    LegalIdsMatch(Repair(ms));
    MendIdentity(Repair(ms));
    BlockWFIsLegal(ms);
    if BlockWF(ms) {
      LegalIdsMatch(ms);
      MendIdentity(ms);
    }
  }

  // The global repair alone is not enough: an answer may stand apart from its call.
  lemma PairClosedIsNotLegal() returns (ms: seq<Msg>)
    ensures Mend(ms) == ms && !Legal(ms)
  {
    var id := Id("call_1");
    ms := [AI("", [id]), AI("text in between", []), Tool(id, "result")];
    assert ms[0] in ms && ms[2] in ms && id in ms[0].calls;
    assert AnsweredIds(ms) == {id};
    assert CalledIds(ms) == {id};
    MendIdentity(ms);
    assert !InBlock(ms, 2);
  }

  // No text said by anyone but a tool is lost, added or reordered.
  lemma MendKeepsSpeech(ms: seq<Msg>)
    ensures Speech(Mend(ms)) == Speech(ms)
  {
    var answered := AnsweredIds(ms);
    var stripped := StripIncomplete(ms, answered);
    forall m ensures FlatMap(Spoken, IfComplete(answered)(m)) == Spoken(m) {
      FlatMapSingle(Spoken, m);
      FlatMapSingle(Spoken, AI(m.text, []));
    }
    FlatMapCompose(Spoken, IfComplete(answered), Spoken, ms);
    forall m ensures FlatMap(Spoken, IfCalled(CalledIds(stripped))(m)) == Spoken(m) {
      FlatMapSingle(Spoken, m);
    }
    FlatMapCompose(Spoken, IfCalled(CalledIds(stripped)), Spoken, stripped);
  }

  // One message as the two passes of the global repair treat it.
  function Passes(answered: set<CallId>, called: set<CallId>): Msg -> seq<Msg> {
    m => FlatMap(IfCalled(called), IfComplete(answered)(m))
  }

  lemma PassesCompose(ms: seq<Msg>, answered: set<CallId>, called: set<CallId>)
    ensures DropOrphans(StripIncomplete(ms, answered), called) == FlatMap(Passes(answered, called), ms)
  {
    FlatMapCompose(IfCalled(called), IfComplete(answered), Passes(answered, called), ms);
  }

  lemma PassesOne(m: Msg, answered: set<CallId>, called: set<CallId>)
    ensures Passes(answered, called)(m)
         == if m.Caller() && !(m.Needed() <= answered) then Stripped(m)
            else if m.Tool? && m.callId !in called then [] else [m]
  {
    FlatMapSingle(IfCalled(called), m);
    FlatMapSingle(IfCalled(called), AI(m.text, []));
    if m.Caller() && !(m.Needed() <= answered) {
      assert IfComplete(answered)(m) == Stripped(m);
    } else {
      assert IfComplete(answered)(m) == [m];
    }
  }

  // What the calls and answers in the list leave of a message: a caller stays when all its
  // calls are answered, a tool message when it answers a caller that stays.
  predicate Survives(ms: seq<Msg>, m: Msg) {
    match m
    case AI(_, calls) => forall c | c in calls :: AnsweredSomewhere(ms, c)
    case Tool(id, _) => exists caller :: caller in ms && caller.AI? && id in caller.calls && forall c | c in caller.calls :: AnsweredSomewhere(ms, c)
    case _ => true
  }

  predicate AnsweredSomewhere(ms: seq<Msg>, c: CallId) {
    exists m :: m in ms && m.Tool? && m.callId == c
  }

  lemma AnsweredIdsAre(ms: seq<Msg>, m: Msg)
    requires m.AI?
    ensures Survives(ms, m) <==> m.Needed() <= AnsweredIds(ms)
  {
    forall c ensures c in AnsweredIds(ms) <==> AnsweredSomewhere(ms, c) {
      if t :| t in ms && t.Tool? && t.callId == c { assert c in AnsweredIds(ms); }
    }
    assert forall c :: c in m.Needed() <==> c in m.calls;
  }

  lemma StrippedMembers(ms: seq<Msg>, m: Msg)
    requires m.Caller()
    ensures m in StripIncomplete(ms, AnsweredIds(ms)) <==> m in ms && Survives(ms, m)
  {
    var f := IfComplete(AnsweredIds(ms));
    FlatMapMembers(f, ms);
    AnsweredIdsAre(ms, m);
    hide AnsweredSomewhere, FlatMap;
    if m in ms && Survives(ms, m) { assert m in f(m); }
  }

  lemma SurvivingCalls(ms: seq<Msg>, c: CallId)
    ensures c in CalledIds(StripIncomplete(ms, AnsweredIds(ms))) <==>
              exists caller :: caller in ms && caller.AI? && c in caller.calls && Survives(ms, caller)
  {
    var stripped := StripIncomplete(ms, AnsweredIds(ms));
    forall m: Msg | m.Caller() ensures m in stripped <==> m in ms && Survives(ms, m) {
      StrippedMembers(ms, m);
    }
    hide StripIncomplete, AnsweredIds, Survives;
    if c in CalledIds(stripped) {
      var m :| m in stripped && m.AI? && c in m.calls;
    }
  }

  // Only a message itself passes as it is, and it passes just when it survives.
  lemma PassesSurvivor(ms: seq<Msg>, m: Msg, x: Msg)
    requires m.AI? && m.calls == [] ==> m.text == ""
    ensures var f := Passes(AnsweredIds(ms), CalledIds(StripIncomplete(ms, AnsweredIds(ms))));
      && (Survives(ms, m) ==> f(m) == [m])
      && (m in f(x) ==> x == m && Survives(ms, m))
  {
    var answered := AnsweredIds(ms);
    var called := CalledIds(StripIncomplete(ms, answered));
    PassesOne(m, answered, called);
    PassesOne(x, answered, called);
    if m.Tool? { SurvivingCalls(ms, m.callId); }
    if m.AI? { AnsweredIdsAre(ms, m); }
    hide AnsweredIds, CalledIds, StripIncomplete, FlatMap, AnsweredSomewhere, Passes;
  }

  // Callers, answers and what is said by others are kept as often as they were, or not at all;
  // only the text of an assistant message may come to stand alone.
  lemma MendKeepsPairs(ms: seq<Msg>, m: Msg)
    requires m.AI? && m.calls == [] ==> m.text == ""
    ensures multiset(Mend(ms))[m] == if Survives(ms, m) then multiset(ms)[m] else 0
  {
    var answered := AnsweredIds(ms);
    var called := CalledIds(StripIncomplete(ms, answered));
    var f := Passes(answered, called);
    PassesCompose(ms, answered, called);
    assert Mend(ms) == FlatMap(f, ms);
    hide *;
    PassesSurvivor(ms, m, m);
    forall x | x in ms ensures m in f(x) ==> x == m && Survives(ms, m) { PassesSurvivor(ms, m, x); }
    if Survives(ms, m) {
      FlatMapKeepsCount(f, ms, m);
    } else {
      FlatMapDrops(f, ms, m);
    }
  }
}
