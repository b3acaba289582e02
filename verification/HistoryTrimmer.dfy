/**
 Cutting a history down to a token budget (`trim_langchain_messages`): the system messages,
 the latest summary checkpoint and the longest suffix that fits are kept, and the pairs the
 cut has broken are repaired.
 */
module HistoryTrimmer {
  import opened Sequences
  import opened MessageHistory
  import opened StrictSanitizer
  import opened PairSanitizer

  /* ----- token estimate ----- */

  predicate IsChinese(c: char) {
    '\U{4e00}' <= c <= '\U{9fff}'
  }

  function ChineseCount(text: string): (n: nat)
    ensures n <= |text|
  {
    if text == "" then 0 else (if IsChinese(text[0]) then 1 else 0) + ChineseCount(text[1..])
  }

  // 1.5 characters a token for Chinese, 4 for the rest, rounded down, plus one.
  function EstimateTokens(text: string): nat {
    if text == "" then 0
    else
      var chinese := ChineseCount(text);
      (8 * chinese + 3 * (|text| - chinese)) / 12 + 1
  }

  function TokensOf(m: Msg): nat {
    EstimateTokens(m.text)
  }

  function Tokens(ms: seq<Msg>): nat {
    SumBy(TokensOf, ms)
  }

  /* ----- the parts of the history ----- */

  const OPEN := "<summary>"
  const CLOSE := "</summary>"

  predicate OccursAt(word: string, text: string, i: nat) {
    i + |word| <= |text| && text[i..i + |word|] == word
  }

  // The text holds an opening tag and, somewhere behind it, a closing tag.
  predicate HasSummary(text: string) {
    exists i: nat, j: nat | i < |text| && j < |text| ::
      OccursAt(OPEN, text, i) && i + |OPEN| <= j && OccursAt(CLOSE, text, j)
  }

  predicate IsCheckpoint(m: Msg) {
    m.AI? && HasSummary(m.text)
  }

  function IfSystem(m: Msg): seq<Msg> {
    if m.System? then [m] else []
  }

  function Systems(ms: seq<Msg>): seq<Msg> {
    FlatMap(IfSystem, ms)
  }

  function IfNotSystem(m: Msg): seq<Msg> {
    if m.System? then [] else [m]
  }

  function NonSystems(ms: seq<Msg>): seq<Msg> {
    FlatMap(IfNotSystem, ms)
  }

  // One past the index of the last checkpoint; 0 when there is none.
  function CandidateStart(ms: seq<Msg>): (k: nat)
    ensures k <= |ms|
    ensures k > 0 ==> IsCheckpoint(ms[k - 1])
    ensures forall i | k <= i < |ms| :: !IsCheckpoint(ms[i])
  {
    if ms == [] then 0
    else if IsCheckpoint(ms[|ms| - 1]) then |ms|
    else CandidateStart(ms[..|ms| - 1])
  }

  function Checkpoint(ms: seq<Msg>): seq<Msg> {
    var k := CandidateStart(ms);
    if k > 0 then [ms[k - 1]] else []
  }

  function Candidates(ms: seq<Msg>): seq<Msg> {
    NonSystems(ms[CandidateStart(ms)..])
  }

  function Pinned(ms: seq<Msg>): seq<Msg> {
    Systems(ms) + Checkpoint(ms)
  }

  // Where the kept suffix of the candidates begins, going backwards while the budget lasts.
  function TailStart(candidates: seq<Msg>, used: nat, maxTokens: int): (k: nat)
    ensures k <= |candidates|
  {
    if candidates == [] then 0
    else
      var front, last := candidates[..|candidates| - 1], candidates[|candidates| - 1];
      var t := EstimateTokens(last.text);
      if used + t > maxTokens then |candidates| else TailStart(front, used + t, maxTokens)
  }

  function Kept(ms: seq<Msg>, maxTokens: int): seq<Msg> {
    var candidates := Candidates(ms);
    candidates[TailStart(candidates, Tokens(Pinned(ms)), maxTokens)..]
  }

  function Trim(ms: seq<Msg>, maxTokens: int): seq<Msg> {
    if ms == [] then []
    else if Tokens(ms) <= maxTokens then Mend(ms)
    else Mend(Pinned(ms) + Kept(ms, maxTokens))
  }

  /* ----- the loops of the source ----- */

  lemma NoTokens()
    ensures Tokens([]) == 0
  {}

  method TotalTokens(ms: seq<Msg>) returns (total: nat)
    ensures total == Tokens(ms)
  {
    total := 0;
    for i := 0 to |ms|
      invariant total == Tokens(ms[..i])
    {
      SumByStep(TokensOf, ms, i);
      total := total + EstimateTokens(ms[i].text);
    }
    assert ms[..|ms|] == ms;
  }

  lemma CandidateStartStep(ms: seq<Msg>, start: nat)
    requires 0 < start <= |ms|
    ensures CandidateStart(ms[..start])
         == if IsCheckpoint(ms[start - 1]) then start else CandidateStart(ms[..start - 1])
  {
    assert ms[..start][..start - 1] == ms[..start - 1];
  }

  method FindCandidateStart(ms: seq<Msg>) returns (start: nat)
    ensures start == CandidateStart(ms)
  {
    start := |ms|;
    assert ms[..start] == ms;
    hide CandidateStart, HasSummary;
    while start > 0
      invariant start <= |ms|
      invariant CandidateStart(ms) == CandidateStart(ms[..start])
      decreases start
    {
      CandidateStartStep(ms, start);
      if IsCheckpoint(ms[start - 1]) { return; }
      start := start - 1;
    }
  }

  lemma TailStartStep(candidates: seq<Msg>, last: Msg, used: nat, maxTokens: int)
    ensures TailStart(candidates + [last], used, maxTokens)
         == if used + TokensOf(last) > maxTokens then |candidates| + 1
            else TailStart(candidates, used + TokensOf(last), maxTokens)
  {
    assert (candidates + [last])[..|candidates|] == candidates;
  }

  // Walks back from the end while the budget lasts; the kept messages come out reversed.
  method KeepTail(nonSystem: seq<Msg>, used: nat, maxTokens: int) returns (kept: seq<Msg>)
    ensures kept == nonSystem[TailStart(nonSystem, used, maxTokens)..]
  {
    kept := [];
    var currentTokens: nat := used;
    var i := |nonSystem|;
    assert nonSystem[..i] == nonSystem;
    hide Reversed, TailStart, EstimateTokens;
    ReversedNothing();
    while i > 0
      invariant 0 <= i <= |nonSystem| && currentTokens >= 0
      invariant kept == Reversed(nonSystem[i..])
      invariant TailStart(nonSystem, used, maxTokens) == TailStart(nonSystem[..i], currentTokens, maxTokens)
    {
      var msg := nonSystem[i - 1];
      SplitStep(nonSystem, i);
      TailStartStep(nonSystem[..i - 1], msg, currentTokens, maxTokens);
      var msgTokens := EstimateTokens(msg.text);
      if currentTokens + msgTokens > maxTokens { break; }
      ReversedCons(msg, nonSystem[i..]);
      kept := kept + [msg];
      currentTokens := currentTokens + msgTokens;
      i := i - 1;
    }
    if i == 0 { TailStartOfNothing(nonSystem[..i], currentTokens, maxTokens); }
    ReversedTwice(nonSystem[i..]);
    kept := Reversed(kept);
  }

  lemma ReversedNothing()
    ensures Reversed<Msg>([]) == []
  {}

  lemma TailStartOfNothing(candidates: seq<Msg>, used: nat, maxTokens: int)
    requires candidates == []
    ensures TailStart(candidates, used, maxTokens) == 0
  {}

  // Within the budget nothing said is lost, and nothing at all when calls and answers match;
  // over it the same holds of what is kept.
  method TrimMessages(messages: seq<Msg>, maxTokens: int) returns (result: seq<Msg>)
    ensures result == Trim(messages, maxTokens)
    ensures Tokens(messages) <= maxTokens ==>
      Speech(result) == Speech(messages) && (PairClosed(messages) ==> result == messages)
    ensures Tokens(messages) > maxTokens ==>
      var left := Systems(messages) + Checkpoint(messages) + Kept(messages, maxTokens);
      Speech(result) == Speech(left) && (PairClosed(left) ==> result == left)
    ensures PairClosed(result)
  {
    TrimIsMended(messages, maxTokens);
    hide FlatMap, SumBy, Mend, CandidateStart, TailStart;
    if messages == [] {
      return messages;
    }
    var total := TotalTokens(messages);
    if total <= maxTokens {
      result := SanitizePairs(messages);
      return;
    }
    var systemMsgs := Systems(messages);
    var start := FindCandidateStart(messages);
    var checkpoint := if start > 0 then [messages[start - 1]] else [];
    var used := TotalTokens(systemMsgs);
    if start > 0 {
      used := used + EstimateTokens(messages[start - 1].text);
      SumBySingle(TokensOf, messages[start - 1]);
    } else {
      NoTokens();
    }
    SumByConcat(TokensOf, systemMsgs, checkpoint);
    var kept := KeepTail(NonSystems(messages[start..]), used, maxTokens);
    result := SanitizePairs(systemMsgs + checkpoint + kept);
  }

  /* ----- what is kept ----- */

  lemma TrimIsMended(ms: seq<Msg>, maxTokens: int)
    ensures var left := if Tokens(ms) <= maxTokens then ms else Systems(ms) + Checkpoint(ms) + Kept(ms, maxTokens);
      && Speech(Trim(ms, maxTokens)) == Speech(left) && (PairClosed(left) ==> Trim(ms, maxTokens) == left)
      && PairClosed(Trim(ms, maxTokens))
  {
    if ms == [] { NothingLeft(maxTokens); }
    hide Kept, Systems, Checkpoint, Mend, Speech, Tokens;
    var left := if Tokens(ms) <= maxTokens then ms else Systems(ms) + Checkpoint(ms) + Kept(ms, maxTokens);
    NothingToMend();
    MendFixedPoints(left);
    MendKeepsSpeech(left);
  }

  lemma NothingToMend()
    ensures Mend([]) == []
  {}

  lemma NothingLeft(maxTokens: int)
    ensures Systems([]) + Checkpoint([]) + Kept([], maxTokens) == []
  {}

  // The system messages are all there, and nothing else, in their order; so are the others.
  lemma SystemsAreAll(ms: seq<Msg>, m: Msg)
    ensures IsSubsequence(Systems(ms), ms)
    ensures multiset(Systems(ms))[m] == if m.System? then multiset(ms)[m] else 0
  {
    FilterKeepsOrder(IfSystem, ms);
    hide FlatMap, IsSubsequence;
    if m.System? { FlatMapKeepsCount(IfSystem, ms, m); } else { FlatMapDrops(IfSystem, ms, m); }
  }

  lemma OthersAreAll(ms: seq<Msg>, m: Msg)
    ensures IsSubsequence(NonSystems(ms), ms)
    ensures multiset(NonSystems(ms))[m] == if m.System? then 0 else multiset(ms)[m]
  {
    FilterKeepsOrder(IfNotSystem, ms);
    hide FlatMap, IsSubsequence;
    if m.System? { FlatMapDrops(IfNotSystem, ms, m); } else { FlatMapKeepsCount(IfNotSystem, ms, m); }
  }

  lemma OccursBehind(a: string, word: string, b: string)
    ensures OccursAt(word, a + word + b, |a|)
  {}

  lemma SplitAt(text: string, word: string, i: nat)
    requires OccursAt(word, text, i)
    ensures text == text[..i] + word + text[i + |word|..]
  {}

  // The checkpoint is the last message with a summary, and the candidates are what stands behind
  // it, system messages aside; without one they are all the others.
  lemma CheckpointIsLast(ms: seq<Msg>, k: nat)
    ensures (forall i | 0 <= i < |ms| :: !IsCheckpoint(ms[i])) ==> Checkpoint(ms) == [] && Candidates(ms) == NonSystems(ms)
    ensures k < |ms| && IsCheckpoint(ms[k]) && (forall i | k < i < |ms| :: !IsCheckpoint(ms[i])) ==>
              Checkpoint(ms) == [ms[k]] && Candidates(ms) == NonSystems(ms[k + 1..])
  {
    hide HasSummary, NonSystems, FlatMap;
    var start := CandidateStart(ms);
    if forall i | 0 <= i < |ms| :: !IsCheckpoint(ms[i]) {
      assert start == 0 && ms[0..] == ms;
    } else if k < |ms| && IsCheckpoint(ms[k]) && forall i | k < i < |ms| :: !IsCheckpoint(ms[i]) {
      assert start == k + 1;
    }
  }

  // A summary is what the pattern of the source matches.
  lemma SummaryIff(text: string)
    ensures HasSummary(text) <==> exists a, b, c :: text == a + "<summary>" + b + "</summary>" + c
  {
    if i: nat, j: nat :| i < |text| && j < |text| && OccursAt(OPEN, text, i) && i + |OPEN| <= j && OccursAt(CLOSE, text, j) {
      SplitAt(text, CLOSE, j);
      assert OccursAt(OPEN, text[..j], i);
      SplitAt(text[..j], OPEN, i);
      assert text == text[..j][..i] + "<summary>" + text[..j][i + |OPEN|..] + "</summary>" + text[j + |CLOSE|..];
    }
    if a, b, c :| text == a + "<summary>" + b + "</summary>" + c {
      SummaryBetween(a, b, c);
    }
  }

  lemma SummaryBetween(a: string, b: string, c: string)
    ensures HasSummary(a + "<summary>" + b + "</summary>" + c)
  {
    var text, front := a + "<summary>" + b + "</summary>" + c, a + "<summary>" + b;
    OccursBehind(front, CLOSE, c);
    OccursBehind(a, OPEN, b + CLOSE + c);
    assert text == a + OPEN + (b + CLOSE + c) == front + CLOSE + c;
    hide OccursAt;
    assert OccursAt(OPEN, text, |a|) && OccursAt(CLOSE, text, |front|);
  }

  // The estimate rounds the sum of two thirds of a token for each Chinese character and a
  // quarter for each other one down, and adds one; only the empty text costs nothing.
  lemma EstimateRounds(text: string)
    ensures EstimateTokens(text) == 0 <==> text == ""
    ensures var chinese := |ChineseAt(text)|;
      text != "" ==> (EstimateTokens(text) - 1) as real <= chinese as real / 1.5 + (|text| - chinese) as real / 4.0 < EstimateTokens(text) as real
  {
    CountedChinese(text);
  }

  // The places of the Chinese characters.
  function ChineseAt(text: string): set<nat> {
    set i: nat | i < |text| && '\U{4e00}' <= text[i] <= '\U{9fff}'
  }

  function OneOn(a: set<nat>): set<nat> {
    set i: nat | i in a :: i + 1
  }

  lemma ChineseStep(text: string)
    requires text != ""
    ensures ChineseAt(text) == OneOn(ChineseAt(text[1..])) + if IsChinese(text[0]) then {0} else {}
  {
    forall i: nat | i in ChineseAt(text) && i > 0 ensures i in OneOn(ChineseAt(text[1..])) {
      assert text[i] == text[1..][i - 1];
      assert i - 1 in ChineseAt(text[1..]);
    }
    forall i: nat | i in ChineseAt(text[1..]) ensures i + 1 in ChineseAt(text) {
      assert text[i + 1] == text[1..][i];
    }
  }

  lemma {:induction false} CountedChinese(text: string)
    ensures |ChineseAt(text)| == ChineseCount(text)
  {
    if text != "" {
      CountedChinese(text[1..]);
      ChineseStep(text);
      SameSize(ChineseAt(text[1..]));
      hide ChineseAt, IsChinese;
      assert 0 !in OneOn(ChineseAt(text[1..]));
    }
  }

  lemma {:induction false} SameSize(a: set<nat>)
    ensures |OneOn(a)| == |a|
  {
    if a != {} {
      var x :| x in a;
      SameSize(a - {x});
      forall j | j in OneOn(a) && j != x + 1 ensures j in OneOn(a - {x}) {
        var i: nat :| i in a && j == i + 1;
        assert i in a - {x};
      }
      assert OneOn(a) == OneOn(a - {x}) + {x + 1};
    }
  }

  /* ----- the budget ----- */

  lemma TokensOfSuffix(candidates: seq<Msg>, t: nat)
    requires t < |candidates|
    ensures var n := |candidates| - 1;
      Tokens(candidates[t..]) == Tokens(candidates[..n][t..]) + EstimateTokens(candidates[n].text)
  {
    var n := |candidates| - 1;
    assert candidates[t..] == candidates[..n][t..] + [candidates[n]];
    SumBySnoc(TokensOf, candidates[..n][t..], candidates[n]);
  }

  lemma {:induction false} TailFits(candidates: seq<Msg>, used: nat, maxTokens: int)
    ensures var k := TailStart(candidates, used, maxTokens);
      k == |candidates| || used + Tokens(candidates[k..]) <= maxTokens
    decreases |candidates|
  {
    if candidates != [] {
      var n := |candidates| - 1;
      var est := EstimateTokens(candidates[n].text);
      if used + est <= maxTokens {
        TailFits(candidates[..n], used + est, maxTokens);
        TokensOfSuffix(candidates, TailStart(candidates, used, maxTokens));
      }
    }
  }

  lemma {:induction false} LongerTailExceeds(candidates: seq<Msg>, used: nat, maxTokens: int, t: nat)
    requires t < TailStart(candidates, used, maxTokens)
    ensures used + Tokens(candidates[t..]) > maxTokens
    decreases |candidates|
  {
    var n := |candidates| - 1;
    var est := EstimateTokens(candidates[n].text);
    TokensOfSuffix(candidates, t);
    if used + est <= maxTokens {
      LongerTailExceeds(candidates[..n], used + est, maxTokens, t);
    }
  }

  // What is kept behind the checkpoint is the longest suffix that fits: it fits (unless
  // nothing is kept), and every longer suffix does not.
  lemma KeptIsLongestFit(ms: seq<Msg>, maxTokens: int)
    ensures Kept(ms, maxTokens) == [] || Tokens(Pinned(ms)) + Tokens(Kept(ms, maxTokens)) <= maxTokens
    ensures forall t | 0 <= t < |Candidates(ms)| - |Kept(ms, maxTokens)| ::
              Tokens(Pinned(ms)) + Tokens(Candidates(ms)[t..]) > maxTokens
  {
    var candidates, used := Candidates(ms), Tokens(Pinned(ms));
    TailFits(candidates, used, maxTokens);
    forall t | 0 <= t < TailStart(candidates, used, maxTokens)
      ensures used + Tokens(candidates[t..]) > maxTokens
    {
      LongerTailExceeds(candidates, used, maxTokens, t);
    }
  }

  lemma MendCostsNoMore(ms: seq<Msg>)
    ensures Tokens(Mend(ms)) <= Tokens(ms)
  {
    var stripped := StripIncomplete(ms, AnsweredIds(ms));
    FlatMapLighter(TokensOf, IfComplete(AnsweredIds(ms)), ms);
    FlatMapLighter(TokensOf, IfCalled(CalledIds(stripped)), stripped);
  }

  // A trimmed history costs no more than the budget, or than what is pinned when that
  // alone exceeds it.
  lemma TrimBudget(ms: seq<Msg>, maxTokens: int)
    requires ms != []
    ensures Tokens(Trim(ms, maxTokens)) <= maxTokens || Tokens(Trim(ms, maxTokens)) <= Tokens(Pinned(ms))
  {
    MendCostsNoMore(ms);
    MendCostsNoMore(Pinned(ms) + Kept(ms, maxTokens));
    SumByConcat(TokensOf, Pinned(ms), Kept(ms, maxTokens));
    KeptIsLongestFit(ms, maxTokens);
  }

  /* ----- where the messages come from ----- */

  // b is a with some messages dropped and some calls stripped.
  predicate Weakens(a: seq<Msg>, b: seq<Msg>) {
    if a == [] then b == []
    else
      || (b != [] && (b[0] == a[0] || (a[0].AI? && b[0] == AI(a[0].text, []))) && Weakens(a[1..], b[1..]))
      || Weakens(a[1..], b)
  }

  lemma {:induction false} PassesWeaken(ms: seq<Msg>, answered: set<CallId>, called: set<CallId>)
    ensures Weakens(ms, FlatMap(Passes(answered, called), ms))
  {
    if ms != [] {
      var f := Passes(answered, called);
      PassesOne(ms[0], answered, called);
      PassesWeaken(ms[1..], answered, called);
      var tl := FlatMap(f, ms[1..]);
      if f(ms[0]) == [] {
        assert FlatMap(f, ms) == tl;
      } else {
        assert FlatMap(f, ms)[1..] == tl;
      }
    }
  }

  lemma SystemsAreSystem(ms: seq<Msg>)
    ensures forall m | m in Systems(ms) :: m.System?
  {
    FlatMapMembers(IfSystem, ms);
  }

  // Both tags together are 19 characters long.
  lemma SummaryHasText(text: string)
    requires HasSummary(text)
    ensures |text| >= 19
  {}

  // A trimmed history is all system messages, then the checkpoint with its text, then
  // messages from behind the checkpoint only.
  lemma TrimProvenance(ms: seq<Msg>, maxTokens: int) returns (checkpoint: seq<Msg>, tail: seq<Msg>)
    requires ms != [] && Tokens(ms) > maxTokens
    ensures Trim(ms, maxTokens) == Systems(ms) + checkpoint + tail
    ensures Checkpoint(ms) == [] ==> checkpoint == []
    ensures Checkpoint(ms) != [] ==> checkpoint == Checkpoint(ms) || checkpoint == [AI(Checkpoint(ms)[0].text, [])]
    ensures Weakens(Kept(ms, maxTokens), tail)
  {
    var sys, cp, kept := Systems(ms), Checkpoint(ms), Kept(ms, maxTokens);
    var answered := AnsweredIds(sys + cp + kept);
    var called := CalledIds(StripIncomplete(sys + cp + kept, answered));
    var f := Passes(answered, called);
    MendParts(sys, cp, kept);
    SystemsAreSystem(ms);
    forall m | m in sys ensures f(m) == [m] { PassesOne(m, answered, called); }
    FlatMapIdentity(f, sys);
    checkpoint, tail := FlatMap(f, cp), FlatMap(f, kept);
    PassesWeaken(kept, answered, called);
    if cp != [] {
      SummaryHasText(cp[0].text);
      PassesOne(cp[0], answered, called);
      FlatMapSingle(f, cp[0]);
    }
  }

  lemma MendParts(a: seq<Msg>, b: seq<Msg>, c: seq<Msg>)
    ensures var answered := AnsweredIds(a + b + c);
      var f := Passes(answered, CalledIds(StripIncomplete(a + b + c, answered)));
      Mend(a + b + c) == FlatMap(f, a) + FlatMap(f, b) + FlatMap(f, c)
  {
    var all := a + b + c;
    var answered := AnsweredIds(all);
    var called := CalledIds(StripIncomplete(all, answered));
    PassesCompose(all, answered, called);
    FlatMapConcat(Passes(answered, called), a + b, c);
    FlatMapConcat(Passes(answered, called), a, b);
  }
}
