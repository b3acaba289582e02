/**
 When trimming keeps a history legal. The suffix cut may land inside a tool block; the
 result is legal exactly when the ids of the tool messages orphaned by the cut do not get
 mistaken for answers to a surviving call.
 */
module TrimLegality {
  import opened Sequences
  import opened MessageHistory
  import opened StrictSanitizer
  import opened PairSanitizer
  import opened HistoryTrimmer

  // The tool messages at the front of the kept suffix, cut off from their caller.
  function Orphans(kept: seq<Msg>): seq<Msg> {
    kept[..ToolRun(kept)]
  }

  // The calls of the checkpoint that survive the global repair: all or none.
  function SurvivingCalls(checkpoint: seq<Msg>, kept: seq<Msg>): set<CallId> {
    var calls := CalledIds(checkpoint);
    if calls <= AnsweredIds(kept) then calls else {}
  }

  // Of the ids answered by the orphans, exactly the surviving calls of the checkpoint are
  // still called by anybody.
  predicate OrphansHarmless(checkpoint: seq<Msg>, kept: seq<Msg>) {
    var surviving := SurvivingCalls(checkpoint, kept);
    AnsweredIds(Orphans(kept)) * (surviving + CalledIds(AfterCut(kept, 0))) == surviving
  }

  /* ----- the shape of the kept suffix ----- */

  lemma ToolsAreNonSystems(ms: seq<Msg>)
    requires AllTools(ms)
    ensures NonSystems(ms) == ms
  {
    FlatMapIdentity(IfNotSystem, ms);
  }

  lemma NonSystemsCalls(ms: seq<Msg>)
    ensures CalledIds(NonSystems(ms)) == CalledIds(ms)
  {
    FlatMapMembers(IfNotSystem, ms);
    forall m ensures m in NonSystems(ms) <==> m in ms && !m.System? {
      if m in ms && !m.System? { assert m in IfNotSystem(m); }
    }
  }

  lemma NonSystemsOfUnit(m: Msg, block: seq<Msg>, rest: seq<Msg>)
    requires AllTools(block)
    ensures NonSystems([m] + block + rest) == (if m.System? then [] else [m]) + block + NonSystems(rest)
  {
    FlatMapConcat(IfNotSystem, [m] + block, rest);
    FlatMapCons(IfNotSystem, m, block);
    ToolsAreNonSystems(block);
  }

  // Dropping the system messages keeps a history legal.
  lemma {:induction false} NonSystemsLegal(ms: seq<Msg>)
    requires BlockWF(ms)
    ensures BlockWF(NonSystems(ms))
    decreases |ms|
  {
    if ms != [] {
      var m, block, rest := Decompose(ms);
      NonSystemsLegal(rest);
      NonSystemsOfUnit(m, block, rest);
      if m.System? {
        UnitAnswersAll(m, block);
        assert [] + block + NonSystems(rest) == NonSystems(rest);
      } else {
        Compose(m, block, NonSystems(rest));
      }
    }
  }

  // A suffix of the non-system messages is what the system filter leaves of a suffix.
  lemma {:induction false} SuffixOfNonSystems(ms: seq<Msg>, s: nat) returns (k: nat)
    requires s <= |NonSystems(ms)|
    ensures k <= |ms| && NonSystems(ms[k..]) == NonSystems(ms)[s..]
    ensures k < |ms| ==> !ms[k].System?
  {
    if ms == [] {
      k := 0;
    } else if ms[0].System? || s > 0 {
      var k' := SuffixOfNonSystems(ms[1..], if ms[0].System? then s else s - 1);
      k := k' + 1;
      assert ms[1..][k'..] == ms[k..];
    } else {
      k := 0;
      assert ms[0..] == ms;
    }
  }

  // A legal list cut at k: the tool messages at the cut, and a legal rest.
  lemma CutParts(ms: seq<Msg>, k: nat) returns (orphans: seq<Msg>, rest: seq<Msg>)
    requires BlockWF(ms) && k <= |ms|
    ensures orphans == Orphans(ms[k..]) && rest == AfterCut(ms, k)
    ensures ms[k..] == orphans + rest && AllTools(orphans) && BlockWF(rest)
  {
    orphans, rest := Orphans(ms[k..]), AfterCut(ms, k);
    LegalSuffix(ms, k);
  }

  lemma PartsOfCut(orphans: seq<Msg>, rest: seq<Msg>)
    requires AllTools(orphans) && BlockWF(rest)
    ensures Orphans(orphans + rest) == orphans && AfterCut(orphans + rest, 0) == rest
  {
    assert rest == [] || !rest[0].Tool?;
    ToolRunConcat(orphans, rest);
    assert (orphans + rest)[0..] == orphans + rest;
  }

  // The kept suffix is a suffix of the whole history without its system messages.
  lemma KeptIsCut(ms: seq<Msg>, maxTokens: int) returns (k: nat, orphans: seq<Msg>, rest: seq<Msg>)
    requires BlockWF(ms)
    ensures CandidateStart(ms) <= k <= |ms|
    ensures orphans == Orphans(ms[k..]) && rest == NonSystems(AfterCut(ms, k))
    ensures AllTools(orphans) && BlockWF(rest)
    ensures Kept(ms, maxTokens) == orphans + rest
    ensures Orphans(Kept(ms, maxTokens)) == orphans && AfterCut(Kept(ms, maxTokens), 0) == rest
  {
    hide BlockWF, FlatMap, TailStart, CandidateStart, AfterCut, Orphans;
    var c := CandidateStart(ms);
    var k' := SuffixOfNonSystems(ms[c..], TailStart(Candidates(ms), Tokens(Pinned(ms)), maxTokens));
    k := c + k';
    assert ms[c..][k'..] == ms[k..];
    var after;
    orphans, after := CutParts(ms, k);
    rest := NonSystems(after);
    FlatMapConcat(IfNotSystem, orphans, after);
    ToolsAreNonSystems(orphans);
    NonSystemsLegal(after);
    PartsOfCut(orphans, rest);
  }

  /* ----- repairing the assembled list ----- */

  lemma {:induction false} PlainPrefixLegal(a: seq<Msg>, b: seq<Msg>)
    requires forall m | m in a :: !m.Tool? && !m.Caller()
    ensures BlockWF(a + b) <==> BlockWF(b)
  {
    if a == [] {
      assert a + b == b;
    } else {
      assert (a + b)[1..] == a[1..] + b;
      assert (a + b)[0] == a[0] && a[0] in a;
      assert forall m | m in a[1..] :: m in a;
      PlainPrefixLegal(a[1..], b);
    }
  }

  // The checkpoint, if there is one: an assistant message with text.
  ghost predicate IsPinned(checkpoint: seq<Msg>) {
    checkpoint == [] || (|checkpoint| == 1 && checkpoint[0].AI? && checkpoint[0].text != "")
  }

  // What the repair makes of the checkpoint: its calls survive all or none.
  function Reduced(checkpoint: seq<Msg>, surviving: set<CallId>): seq<Msg> {
    if checkpoint == [] || CalledIds(checkpoint) == surviving then checkpoint
    else [AI(checkpoint[0].text, [])]
  }

  lemma ReducedIds(checkpoint: seq<Msg>, kept: seq<Msg>)
    requires IsPinned(checkpoint)
    ensures AnsweredIds(checkpoint) == {}
    ensures CalledIds(Reduced(checkpoint, SurvivingCalls(checkpoint, kept))) == SurvivingCalls(checkpoint, kept)
    ensures checkpoint != [] ==> CalledIds(checkpoint) == checkpoint[0].Needed()
  {
    if checkpoint != [] {
      assert checkpoint == [checkpoint[0]];
      assert CalledIds(checkpoint) == checkpoint[0].Needed();
    }
  }

  // The ids that decide the repair of the assembled list.
  lemma AssembledIds(sys: seq<Msg>, checkpoint: seq<Msg>, orphans: seq<Msg>, rest: seq<Msg>)
    requires (forall m | m in sys :: m.System?) && IsPinned(checkpoint)
    requires AllTools(orphans) && BlockWF(rest)
    ensures AnsweredIds(sys + checkpoint + (orphans + rest)) == AnsweredIds(orphans + rest)
    ensures AnsweredIds(orphans + rest) == AnsweredIds(orphans) + CalledIds(rest)
    ensures CalledIds(sys) == {} && CalledIds(orphans) == {}
  {
    IdsConcat(sys + checkpoint, orphans + rest);
    IdsConcat(sys, checkpoint);
    IdsConcat(orphans, rest);
    LegalIdsMatch(rest);
    ReducedIds(checkpoint, []);
  }

  lemma StripAssembled(sys: seq<Msg>, checkpoint: seq<Msg>, orphans: seq<Msg>, rest: seq<Msg>)
    requires (forall m | m in sys :: m.System?) && IsPinned(checkpoint)
    requires AllTools(orphans) && BlockWF(rest)
    ensures var surviving := SurvivingCalls(checkpoint, orphans + rest);
      StripIncomplete(sys + checkpoint + (orphans + rest), AnsweredIds(orphans + rest))
        == sys + Reduced(checkpoint, surviving) + (orphans + rest)
  {
    hide BlockWF, FlatMap;
    var answered := AnsweredIds(orphans + rest);
    var f := IfComplete(answered);
    AssembledIds(sys, checkpoint, orphans, rest);
    FlatMapIdentity(f, sys);
    StripIncompleteKeeps(orphans, answered);
    StripIncompleteKeeps(rest, answered);
    ReducedIds(checkpoint, orphans + rest);
    if checkpoint == [] {
      FlatMapEmpty(f, checkpoint);
    } else {
      FlatMapSingle(f, checkpoint[0]);
      assert checkpoint == [checkpoint[0]];
      if !checkpoint[0].Caller() { assert checkpoint[0] == AI(checkpoint[0].text, []); }
    }
    FlatMapConcat(f, sys + checkpoint, orphans + rest);
    FlatMapConcat(f, sys, checkpoint);
    FlatMapConcat(f, orphans, rest);
  }

  // The global repair of system messages, a checkpoint, orphans and a legal rest.
  lemma MendAssembled(sys: seq<Msg>, checkpoint: seq<Msg>, orphans: seq<Msg>, rest: seq<Msg>)
    requires (forall m | m in sys :: m.System?) && IsPinned(checkpoint)
    requires AllTools(orphans) && BlockWF(rest)
    ensures var surviving := SurvivingCalls(checkpoint, orphans + rest);
      Mend(sys + checkpoint + (orphans + rest))
        == sys + Reduced(checkpoint, surviving) + (DropOrphans(orphans, surviving + CalledIds(rest)) + rest)
  {
    hide *;
    var surviving := SurvivingCalls(checkpoint, orphans + rest);
    var cp, called := Reduced(checkpoint, surviving), surviving + CalledIds(rest);
    AssembledIds(sys, checkpoint, orphans, rest);
    StripAssembled(sys, checkpoint, orphans, rest);
    ReducedIds(checkpoint, orphans + rest);
    IdsConcat(sys + cp, orphans + rest);
    IdsConcat(sys, cp);
    IdsConcat(orphans, rest);
    assert CalledIds(sys + cp + (orphans + rest)) == called;
    MendIs(sys + checkpoint + (orphans + rest), sys + cp + (orphans + rest), called);
    PinnedHasNoTools(sys, checkpoint, surviving, called);
    LegalIdsMatch(rest);
    DropOrphansKeeps(rest, called);
    DropOrphansConcat(sys + cp, orphans + rest, called);
    DropOrphansConcat(orphans, rest, called);
  }

  lemma MendIs(ms: seq<Msg>, stripped: seq<Msg>, called: set<CallId>)
    requires StripIncomplete(ms, AnsweredIds(ms)) == stripped && CalledIds(stripped) == called
    ensures Mend(ms) == DropOrphans(stripped, called)
  {}

  lemma PinnedHasNoTools(sys: seq<Msg>, checkpoint: seq<Msg>, surviving: set<CallId>, called: set<CallId>)
    requires (forall m | m in sys :: m.System?) && IsPinned(checkpoint)
    ensures DropOrphans(sys + Reduced(checkpoint, surviving), called) == sys + Reduced(checkpoint, surviving)
  {
    assert forall m | m in sys + Reduced(checkpoint, surviving) :: !m.Tool?;
    FlatMapIdentity(IfCalled(called), sys + Reduced(checkpoint, surviving));
  }

  lemma DropOrphansConcat(a: seq<Msg>, b: seq<Msg>, called: set<CallId>)
    ensures DropOrphans(a + b, called) == DropOrphans(a, called) + DropOrphans(b, called)
  {
    FlatMapConcat(IfCalled(called), a, b);
  }

  lemma LeadingTools(block: seq<Msg>, rest: seq<Msg>)
    requires AllTools(block) && BlockWF(rest)
    ensures BlockWF(block + rest) <==> AnsweredIds(block) == {}
  {
    ToolsAnswer(block);
    if block == [] {
      assert block + rest == rest;
    } else {
      assert (block + rest)[0] == block[0] && block[0] in block;
    }
  }

  lemma DroppedToolsAreTools(block: seq<Msg>, called: set<CallId>)
    requires AllTools(block)
    ensures AllTools(DropOrphans(block, called))
  {
    FlatMapMembers(IfCalled(called), block);
  }

  // The exact condition, on the parts of the assembled list.
  lemma AssembledLegalIff(sys: seq<Msg>, checkpoint: seq<Msg>, orphans: seq<Msg>, rest: seq<Msg>)
    requires (forall m | m in sys :: m.System?) && IsPinned(checkpoint)
    requires forall m, c | m in checkpoint && c in m.Needed() :: c.Truthy()
    requires AllTools(orphans) && BlockWF(rest)
    ensures var surviving := SurvivingCalls(checkpoint, orphans + rest);
      BlockWF(Mend(sys + checkpoint + (orphans + rest)))
      <==> AnsweredIds(orphans) * (surviving + CalledIds(rest)) == surviving
  {
    hide BlockWF, FlatMap;
    var surviving := SurvivingCalls(checkpoint, orphans + rest);
    var cp, kept := Reduced(checkpoint, surviving), DropOrphans(orphans, surviving + CalledIds(rest));
    MendAssembled(sys, checkpoint, orphans, rest);
    assert sys + cp + (kept + rest) == sys + (cp + kept + rest);
    PlainPrefixLegal(sys, cp + kept + rest);
    DropOrphansIds(orphans, surviving + CalledIds(rest));
    DroppedToolsAreTools(orphans, surviving + CalledIds(rest));
    ReducedIds(checkpoint, orphans + rest);
    if checkpoint == [] {
      assert surviving == {};
      assert cp + kept + rest == kept + rest;
      LeadingTools(kept, rest);
    } else {
      assert checkpoint[0] in checkpoint;
      assert cp == [cp[0]];
      assert CalledIds(cp) == cp[0].Needed();
      Compose(cp[0], kept, rest);
    }
  }

  lemma CheckpointIsPinned(ms: seq<Msg>)
    requires BlockWF(ms)
    ensures IsPinned(Checkpoint(ms))
    ensures forall m, c | m in Checkpoint(ms) && c in m.Needed() :: c.Truthy()
  {
    var cp := Checkpoint(ms);
    if cp != [] {
      SummaryHasText(cp[0].text);
      assert cp[0] in ms;
      LegalCallsTruthy(ms);
    }
  }

  // Trimming a legal history gives a legal one exactly when the orphans are harmless.
  lemma TrimLegalIff(ms: seq<Msg>, maxTokens: int)
    requires Legal(ms)
    ensures Legal(Trim(ms, maxTokens))
       <==> Tokens(ms) <= maxTokens || ms == [] || OrphansHarmless(Checkpoint(ms), Kept(ms, maxTokens))
  {
    BlockWFIsLegal(ms);
    BlockWFIsLegal(Trim(ms, maxTokens));
    if Tokens(ms) <= maxTokens {
      LegalIsMended(ms);
    } else {
      hide BlockWF, Tokens, Kept, Orphans, AfterCut, SurvivingCalls, Mend, Checkpoint, Systems;
      var k, orphans, rest := KeptIsCut(ms, maxTokens);
      SystemsAreSystem(ms);
      CheckpointIsPinned(ms);
      AssembledLegalIff(Systems(ms), Checkpoint(ms), orphans, rest);
    }
  }

  // No call id is used by two assistant messages.
  ghost predicate UniqueCallIds(ms: seq<Msg>) {
    forall i, j | 0 <= i < j < |ms| :: ms[i].Needed() !! ms[j].Needed()
  }

  lemma UniqueSplit(ms: seq<Msg>, i: nat, j: nat)
    requires UniqueCallIds(ms) && i <= j <= |ms|
    ensures CalledIds(ms[..i]) !! CalledIds(ms[j..])
  {
    forall c | c in CalledIds(ms[..i]) ensures c !in CalledIds(ms[j..]) {
      var m :| m in ms[..i] && c in m.Needed();
      var a :| 0 <= a < i && ms[a] == m;
      forall n | n in ms[j..] ensures c !in n.Needed() {
        var b :| 0 <= b < |ms[j..]| && ms[j..][b] == n;
        assert ms[a].Needed() !! ms[j + b].Needed();
      }
    }
  }

  // The tool messages at a cut answer calls made before the cut.
  lemma {:induction false} CutAnswersEarlierCalls(ms: seq<Msg>, k: nat)
    requires BlockWF(ms) && k <= |ms|
    ensures AnsweredIds(Orphans(ms[k..])) <= CalledIds(ms[..k])
    decreases |ms|
  {
    if k == 0 {
      assert ms[0..] == ms;
      assert ms == [] || !ms[0].Tool?;
    } else {
      var m, block, rest := Decompose(ms);
      if k <= 1 + |block| {
        CutInUnit(m, block, rest, k);
      } else {
        var head, k' := [m] + block, k - 1 - |block|;
        CutAnswersEarlierCalls(rest, k');
        hide BlockWF, Orphans;
        assert ms[k..] == rest[k'..];
        assert ms[..k] == head + rest[..k'];
        IdsConcat(head, rest[..k']);
      }
    }
  }

  lemma CutInUnit(m: Msg, block: seq<Msg>, rest: seq<Msg>, k: nat)
    requires Unit(m, block) && 0 < k <= 1 + |block|
    requires rest == [] || !rest[0].Tool?
    ensures var ms := [m] + block + rest;
      AnsweredIds(Orphans(ms[k..])) <= CalledIds(ms[..k])
  {
    var ms := [m] + block + rest;
    var cut := block[k - 1..];
    assert ms[k..] == cut + rest;
    ToolRunConcat(cut, rest);
    assert Orphans(ms[k..]) == cut;
    assert forall t | t in cut :: t in block;
    assert AnsweredIds(cut) <= m.Needed();
    assert ms[..k][0] == m && m in ms[..k];
  }

  // With unique ids a cut leaves harmless orphans.
  lemma UniqueIdsHarmless(ms: seq<Msg>, maxTokens: int)
    requires BlockWF(ms) && UniqueCallIds(ms)
    ensures OrphansHarmless(Checkpoint(ms), Kept(ms, maxTokens))
  {
    hide BlockWF, Tokens, Kept, Orphans, ToolRun, FlatMap, AfterCut, CandidateStart;
    var k, orphans, rest := KeptIsCut(ms, maxTokens);
    var cp, kept := Checkpoint(ms), Kept(ms, maxTokens);
    assert AnsweredIds(orphans) !! CalledIds(rest) && CalledIds(cp) !! CalledIds(rest) by {
      CutSeparatesCalls(ms, k);
    }
    IdsConcat(orphans, rest);
    LegalIdsMatch(rest);
    assert AnsweredIds(kept) == AnsweredIds(orphans) + CalledIds(rest);
  }

  // With unique ids nothing behind the cut calls an id called or answered across it.
  lemma CutSeparatesCalls(ms: seq<Msg>, k: nat)
    requires BlockWF(ms) && UniqueCallIds(ms) && CandidateStart(ms) <= k <= |ms|
    ensures AnsweredIds(Orphans(ms[k..])) !! CalledIds(NonSystems(AfterCut(ms, k)))
    ensures CalledIds(Checkpoint(ms)) !! CalledIds(NonSystems(AfterCut(ms, k)))
  {
    hide BlockWF, Orphans, ToolRun, FlatMap, CandidateStart;
    NonSystemsCalls(AfterCut(ms, k));
    CutAnswersEarlierCalls(ms, k);
    UniqueSplit(ms, k, k + ToolRun(ms[k..]));
    var cp := Checkpoint(ms);
    if cp != [] {
      assert ms[..k][CandidateStart(ms) - 1] == cp[0];
      assert cp[0] in ms[..k];
      assert CalledIds(cp) <= CalledIds(ms[..k]);
    }
  }

  // Trimming preserves legality when no call id is used twice, even when the cut lands
  // inside a tool block or inside the checkpoint's own block.
  lemma TrimPreservesLegality(ms: seq<Msg>, maxTokens: int)
    requires Legal(ms) && UniqueCallIds(ms)
    ensures Legal(Trim(ms, maxTokens))
  {
    BlockWFIsLegal(ms);
    UniqueIdsHarmless(ms, maxTokens);
    TrimLegalIff(ms, maxTokens);
  }

  lemma {:induction false} NoChinese(text: string)
    requires forall c | c in text :: !IsChinese(c)
    ensures ChineseCount(text) == 0
  {
    if text != "" { NoChinese(text[1..]); }
  }

  // A call id used by two assistant messages. The budget forces the cut between the first
  // call and its answer, which then reads as a second answer to the other call.
  const REUSED := Id("x")
  const CALL := AI("", [REUSED])
  const ANSWER := Tool(REUSED, "abcd")
  const REUSED_ID_HISTORY := [AI("abcdefgh", [REUSED]), ANSWER, CALL, ANSWER]

  lemma ReusedIdHistoryIsLegal()
    ensures Legal(REUSED_ID_HISTORY)
  {
    assert ANSWER in [ANSWER];
    assert AnsweredIds([ANSWER]) == {REUSED};
    var second := [CALL] + [ANSWER] + [];
    Compose(CALL, [ANSWER], []);
    var first := AI("abcdefgh", [REUSED]);
    Compose(first, [ANSWER], second);
    assert REUSED_ID_HISTORY == [first] + [ANSWER] + second;
    BlockWFIsLegal(REUSED_ID_HISTORY);
  }

  lemma ReusedIdParts()
    ensures Systems(REUSED_ID_HISTORY) == [] && NonSystems(REUSED_ID_HISTORY) == REUSED_ID_HISTORY
    ensures CandidateStart(REUSED_ID_HISTORY) == 0
  {
    var ms := REUSED_ID_HISTORY;
    hide FlatMap, HasSummary, CandidateStart;
    FlatMapEmpty(IfSystem, ms);
    FlatMapIdentity(IfNotSystem, ms);
    var k := CandidateStart(ms);
    if k > 0 {
      assert |ms[k - 1].text| <= 8;
      SummaryHasText(ms[k - 1].text);
    }
  }

  lemma ReusedIdTokens()
    ensures Tokens(REUSED_ID_HISTORY) == 7
  {
    ReusedIdCosts();
    hide EstimateTokens;
    var ms := REUSED_ID_HISTORY;
    assert ms[..1] == [ms[0]] && ms[..2] == ms[..1] + [ms[1]] && ms[..3] == ms[..2] + [ms[2]] && ms == ms[..3] + [ms[3]];
    SumBySingle(TokensOf, ms[0]);
    SumBySnoc(TokensOf, ms[..1], ms[1]);
    SumBySnoc(TokensOf, ms[..2], ms[2]);
    SumBySnoc(TokensOf, ms[..3], ms[3]);
  }

  lemma ReusedIdCosts()
    ensures EstimateTokens("abcdefgh") == 3 && EstimateTokens("abcd") == 2 && EstimateTokens("") == 0
  {
    NoChinese("abcdefgh");
    NoChinese("abcd");
  }

  lemma ReusedIdKept()
    ensures Checkpoint(REUSED_ID_HISTORY) == []
    ensures Kept(REUSED_ID_HISTORY, 6) == [ANSWER, CALL, ANSWER]
  {
    var ms := REUSED_ID_HISTORY;
    ReusedIdParts();
    ReusedIdCosts();
    hide CandidateStart, FlatMap, EstimateTokens;
    assert ms[0..] == ms;
    NoTokens();
    assert Tokens(Pinned(ms)) == 0;
    var u1, u2, u3 := ms[..1], ms[..2], ms[..3];
    assert u3[..2] == u2 && u2[..1] == u1;
    assert TailStart(u1, 4, 6) == 1;
    assert TailStart(u2, 2, 6) == 1;
    assert TailStart(u3, 2, 6) == 1;
    assert TailStart(ms, 0, 6) == 1;
  }

  // The uniqueness of the ids is needed: here a legal history is trimmed to an illegal one.
  lemma TrimNeedsUniqueIds()
    ensures Legal(REUSED_ID_HISTORY) && !Legal(Trim(REUSED_ID_HISTORY, 6))
  {
    ReusedIdHistoryIsLegal();
    ReusedIdTokens();
    ReusedIdKept();
    hide Tokens, Kept, Checkpoint, Trim, Legal;
    var kept := Kept(REUSED_ID_HISTORY, 6);
    assert kept[1..] == [CALL, ANSWER];
    assert kept == [ANSWER] + [CALL, ANSWER] && kept[0..] == kept;
    ToolRunConcat([ANSWER], [CALL, ANSWER]);
    assert Orphans(kept) == [ANSWER] && AfterCut(kept, 0) == [CALL, ANSWER];
    assert ANSWER in Orphans(kept) && REUSED in AnsweredIds(Orphans(kept));
    assert CALL in AfterCut(kept, 0) && REUSED in CALL.calls;
    assert REUSED in CalledIds(AfterCut(kept, 0));
    assert CalledIds([]) == {};
    TrimLegalIff(REUSED_ID_HISTORY, 6);
  }
}
