/**
 The two-node agent graph (llm and tools), its round budget, and the retry loop around one
 model call. The model, the compaction strategies and the tools are arbitrary functions.
 */
module AgentLoop {
  import opened MessageHistory
  import opened StrictSanitizer
  import opened PairSanitizer
  import opened HistoryTrimmer

  /* ----- one model call with its retries ----- */

  // What one attempt to call the model gives; Overflow is an error that the error check
  // answers with reactive compaction, Fatal any other.
  datatype Attempt = Answer(text: string, calls: seq<CallId>) | Malformed | Overflow | Fatal

  // The model as seen from one node visit: attempt number and request decide the outcome,
  // so every behaviour over time is covered.
  type Model = (nat, seq<Msg>) -> Attempt

  // The request-local compactions: `micro` cuts tool results, `discard` drops the oldest round.
  datatype Compaction = Compaction(fits: seq<Msg> -> bool, micro: seq<Msg> -> seq<Msg>, discard: seq<Msg> -> seq<Msg>)
  {
    function First(repaired: seq<Msg>): seq<Msg> {
      if fits(repaired) then repaired else micro(repaired)
    }

    function Next(failure: Attempt, request: seq<Msg>): seq<Msg> {
      if failure.Malformed? || micro(request) == request then discard(request) else micro(request)
    }
  }

  // The k-th request was answered by a failure that allows a retry, and the next request is
  // shorter by what the failure calls for: a malformed answer loses the oldest round, an
  // overflow cuts tool results, or the oldest round when there are none to cut.
  ghost predicate Retried(model: Model, c: Compaction, requests: seq<seq<Msg>>, k: nat)
    requires k + 1 < |requests|
  {
    var failure, request := model(k, requests[k]), requests[k];
    && (failure.Malformed? || failure.Overflow?)
    && (failure.Malformed? ==> requests[k + 1] == c.discard(request))
    && (failure.Overflow? && c.micro(request) != request ==> requests[k + 1] == c.micro(request))
    && (failure.Overflow? && c.micro(request) == request ==> requests[k + 1] == c.discard(request))
    && requests[k + 1] != request
  }

  // Nothing more can be tried: a fatal error, no retry left, or nothing left to compact.
  ghost predicate Exhausted(model: Model, c: Compaction, requests: seq<seq<Msg>>, maxRetries: int, isCompressor: bool)
    requires requests != []
  {
    var k, request := |requests| - 1, requests[|requests| - 1];
    var failure := model(k, request);
    || failure.Fatal?
    || (!failure.Answer? && (isCompressor || k >= maxRetries))
    || (failure.Malformed? && c.discard(request) == request)
    || (failure.Overflow? && c.micro(request) == request && c.discard(request) == request)
  }

  // How often a failing call is tried again at most.
  function Retries(maxRetries: int, isCompressor: bool): nat {
    if isCompressor || maxRetries < 0 then 0 else maxRetries
  }

  // What calling the model comes to, from the k-th request on.
  function Result(model: Model, c: Compaction, retries: nat, k: nat, request: seq<Msg>): Attempt
    decreases retries - k
  {
    var attempt := model(k, request);
    if attempt.Answer? || attempt.Fatal? || k >= retries || c.Next(attempt, request) == request then attempt
    else Result(model, c, retries, k + 1, c.Next(attempt, request))
  }

  method CallModel(repaired: seq<Msg>, model: Model, c: Compaction, maxRetries: int, isCompressor: bool)
    returns (attempt: Attempt, ghost requests: seq<seq<Msg>>)
    ensures attempt == Result(model, c, Retries(maxRetries, isCompressor), 0, c.First(repaired))
    ensures 1 <= |requests| <= Retries(maxRetries, isCompressor) + 1
    ensures requests[0] == if c.fits(repaired) then repaired else c.micro(repaired)
    ensures isCompressor || maxRetries <= 0 ==> |requests| == 1
    ensures forall k: nat | k + 1 < |requests| :: Retried(model, c, requests, k)
    ensures attempt == model(|requests| - 1, requests[|requests| - 1])
    ensures attempt.Answer? || Exhausted(model, c, requests, maxRetries, isCompressor)
  {
    var retryCount, request := 0, c.First(repaired);
    requests := [request];
    ghost var retries := Retries(maxRetries, isCompressor);
    while true
      invariant 0 <= retryCount <= retries
      invariant |requests| == retryCount + 1 && request == requests[retryCount]
      invariant requests[0] == c.First(repaired)
      invariant Result(model, c, retries, 0, c.First(repaired)) == Result(model, c, retries, retryCount, request)
      invariant forall k: nat | k + 1 < |requests| :: Retried(model, c, requests, k)
      decreases retries - retryCount
    {
      attempt := model(retryCount, request);
      if attempt.Answer? || attempt.Fatal? || isCompressor || retryCount >= maxRetries {
        return;
      }
      var next := c.Next(attempt, request);
      if next == request {
        return;
      }
      ghost var before := requests;
      retryCount := retryCount + 1;
      request := next;
      requests := requests + [next];
      forall k: nat | k + 1 < |requests| ensures Retried(model, c, requests, k) {
        if k + 1 < |before| { assert Retried(model, c, before, k); }
      }
    }
  }

  /* ----- the two nodes and the edge between them ----- */

  datatype State = State(messages: seq<Msg>, remaining: int) {
    function Last(): Msg
      requires messages != []
    {
      messages[|messages| - 1]
    }
  }

  datatype Edge = ToTools | ToEnd

  function ShouldContinue(s: State): Edge {
    if s.messages != [] && s.Last().Caller() && s.remaining > 0 then ToTools else ToEnd
  }

  const SKIPPED_NOTE := "[工具调用已因轮次耗尽被跳过，请继续对话]"

  // The llm node appends the response; with one round or less left it keeps only the text.
  function AfterModel(s: State, text: string, calls: seq<CallId>): State {
    if calls == [] then s.(messages := s.messages + [AI(text, [])])
    else if s.remaining <= 1 then
      State(s.messages + [AI(if text != "" then text else SKIPPED_NOTE, [])], 0)
    else State(s.messages + [AI(text, calls)], s.remaining - 1)
  }

  // What the llm node makes of an answer: plain text ends the turn and costs nothing; calls
  // cost a round; in the last round they are dropped, and the text stays or a note stands in.
  ghost predicate Takes(s: State, text: string, calls: seq<CallId>, next: State) {
    && (calls == [] ==> next.messages == s.messages + [AI(text, [])] && next.remaining == s.remaining)
    && (calls != [] && s.remaining > 1 ==>
          next.messages == s.messages + [AI(text, calls)] && next.remaining == s.remaining - 1)
    && (calls != [] && s.remaining <= 1 && text != "" ==> next.messages == s.messages + [AI(text, [])] && next.remaining == 0)
    && (calls != [] && s.remaining <= 1 && text == "" ==> next.messages == s.messages + [AI(SKIPPED_NOTE, [])] && next.remaining == 0)
  }

  // The first request is the strictly repaired history, compacted if it does not fit. The
  // history itself is never repaired or compacted, only extended by the answer to the last
  // request.
  method LlmNode(s: State, model: Model, c: Compaction, maxRetries: int, isCompressor: bool)
    returns (ok: bool, next: State, ghost requests: seq<seq<Msg>>)
    ensures requests != [] && requests[0] == (if c.fits(Repair(s.messages)) then Repair(s.messages) else c.micro(Repair(s.messages)))
    ensures Legal(Repair(s.messages))
    ensures var answer := model(|requests| - 1, requests[|requests| - 1]);
      && ok == answer.Answer?
      && (ok ==> Takes(s, answer.text, answer.calls, next))
      && (!ok ==> next == s)
    ensures ok ==> exists text, calls :: next == AfterModel(s, text, calls)
    ensures forall k: nat | k + 1 < |requests| :: Retried(model, c, requests, k)
    ensures |requests| <= Retries(maxRetries, isCompressor) + 1
    ensures !ok ==> Exhausted(model, c, requests, maxRetries, isCompressor)
  {
    var repaired := SanitizeStrict(s.messages);
    RepairFixedPoints(s.messages);
    var attempt;
    attempt, requests := CallModel(repaired, model, c, maxRetries, isCompressor);
    ok := attempt.Answer?;
    next := if ok then AfterModel(s, attempt.text, attempt.calls) else s;
  }

  // The guard in front of every tool call.
  predicate RoundsGuardAllows(s: State) {
    s.remaining > 0
  }

  const REFUSAL := "[错误] 工具调用次数已达本轮上限，无法继续执行。请根据已有信息直接回复用户。"

  // The tool node answers each call of the last message, in order.
  function ToolAnswers(s: State, tool: CallId -> string): seq<Msg>
    requires s.messages != [] && s.Last().Caller()
  {
    var calls := s.Last().calls;
    seq(|calls|, i requires 0 <= i < |calls| =>
      Tool(calls[i], if RoundsGuardAllows(s) then tool(calls[i]) else REFUSAL))
  }

  // A call is answered by its tool while rounds are left, and refused otherwise.
  lemma AnswerOfCall(s: State, tool: CallId -> string, i: nat)
    requires s.messages != [] && s.Last().Caller() && i < |s.Last().calls|
    ensures |ToolAnswers(s, tool)| == |s.Last().calls|
    ensures var id := s.Last().calls[i];
      && (s.remaining > 0 ==> ToolAnswers(s, tool)[i] == Tool(id, tool(id)))
      && (s.remaining <= 0 ==> ToolAnswers(s, tool)[i] == Tool(id, REFUSAL))
  {}

  /* ----- all runs of the graph ----- */

  ghost predicate LlmStep(s: State, s': State) {
    exists text, calls :: s' == AfterModel(s, text, calls)
  }

  ghost predicate ToolsStep(s: State, s': State) {
    && ShouldContinue(s) == ToTools
    && exists tool: CallId -> string :: s' == s.(messages := s.messages + ToolAnswers(s, tool))
  }

  // The states between node visits: the llm node acts on even positions, the tools node on
  // odd ones.
  ghost predicate IsRun(run: seq<State>) {
    && run != []
    && forall i: nat | i + 1 < |run| ::
         if i % 2 == 0 then LlmStep(run[i], run[i + 1]) else ToolsStep(run[i], run[i + 1])
  }

  // The run has come to the end node.
  ghost predicate IsFinished(run: seq<State>) {
    IsRun(run) && |run| % 2 == 0 && ShouldContinue(run[|run| - 1]) == ToEnd
  }

  // Each pass through the tools costs exactly one round, and leaves at least one.
  lemma {:induction false} RoundsSpent(run: seq<State>, k: nat)
    requires IsRun(run) && 2 * k < |run|
    ensures run[2 * k].remaining == run[0].remaining - k
    ensures k > 0 ==> run[2 * k].remaining > 0
  {
    if k > 0 {
      RoundsSpent(run, k - 1);
      var s, t, u := run[2 * k - 2], run[2 * k - 1], run[2 * k];
      assert LlmStep(s, t) && ToolsStep(t, u);
    }
  }

  // Every run is finite: with R rounds at most max(0, R - 1) passes through the tools.
  lemma RunIsBounded(run: seq<State>)
    requires IsRun(run)
    ensures (|run| - 1) / 2 <= if run[0].remaining > 1 then run[0].remaining - 1 else 0
  {
    RoundsSpent(run, (|run| - 1) / 2);
  }

  // The rounds guard never rejects a call.
  lemma GuardNeverRejects(run: seq<State>, i: nat)
    requires IsRun(run) && i % 2 == 1 && i + 1 < |run|
    ensures RoundsGuardAllows(run[i])
  {
    assert ToolsStep(run[i], run[i + 1]);
  }

  // A pending call always has rounds left: the edge that ends a run with calls pending is
  // never taken, so the last message of a finished run carries none.
  lemma NoCallLeftPending(run: seq<State>, i: nat)
    requires IsRun(run) && i % 2 == 1 && i < |run|
    ensures run[i].messages != [] && run[i].Last().AI?
    ensures run[i].Last().Caller() <==> ShouldContinue(run[i]) == ToTools
    ensures IsFinished(run) ==> run[|run| - 1].messages != [] && !run[|run| - 1].Last().Caller()
  {
    forall j: nat | j % 2 == 1 && j < |run|
      ensures run[j].messages != [] && run[j].Last().AI?
      ensures run[j].Last().Caller() ==> run[j].remaining > 0
    {
      assert LlmStep(run[j - 1], run[j]);
    }
  }

  // Every call the model has made in the first n states has an id.
  ghost predicate CallsHaveIds(run: seq<State>, n: nat) {
    forall i: nat | i < n <= |run| && i % 2 == 1 && run[i].messages != [] :: IdsTruthy(run[i].Last())
  }

  predicate IdsTruthy(m: Msg) {
    forall c | c in m.Needed() :: c.Truthy()
  }

  lemma PlainAppend(ms: seq<Msg>, m: Msg)
    requires Legal(ms) && !m.Tool? && !m.Caller()
    ensures Legal(ms + [m])
  {
    BlockWFIsLegal(ms);
    PlainPrefix(m, []);
    assert [m] + [] == [m];
    BlockWFAppend(ms, [m]);
    BlockWFIsLegal(ms + [m]);
  }

  lemma AnswersMatch(m: Msg, answers: seq<Msg>)
    requires m.AI? && |answers| == |m.calls|
    requires forall i | 0 <= i < |answers| :: answers[i].Tool? && answers[i].callId == m.calls[i]
    ensures AllTools(answers) && AnsweredIds(answers) == m.Needed()
  {
    forall c | c in m.Needed() ensures c in AnsweredIds(answers) {
      var i :| 0 <= i < |m.calls| && m.calls[i] == c;
      assert answers[i] in answers;
    }
  }

  // A message whose calls are all answered right behind it keeps a history legal.
  lemma AnsweredAppend(ms: seq<Msg>, m: Msg, answers: seq<Msg>)
    requires Legal(ms) && m.AI? && AllTools(answers) && AnsweredIds(answers) == m.Needed()
    requires forall c | c in m.Needed() :: c.Truthy()
    ensures Legal(ms + [m] + answers)
  {
    BlockWFIsLegal(ms);
    Compose(m, answers, []);
    assert [m] + answers + [] == [m] + answers;
    BlockWFAppend(ms, [m] + answers);
    assert ms + [m] + answers == ms + ([m] + answers);
    BlockWFIsLegal(ms + [m] + answers);
  }

  // One pass through both nodes keeps a legal history legal.
  lemma PassKeepsLegality(s: State, t: State, u: State)
    requires Legal(s.messages) && LlmStep(s, t) && ToolsStep(t, u)
    requires IdsTruthy(t.Last())
    ensures Legal(u.messages)
  {
    var tool: CallId -> string :| u == t.(messages := t.messages + ToolAnswers(t, tool));
    var m, answers := t.Last(), ToolAnswers(t, tool);
    AnswersMatch(m, answers);
    AnsweredAppend(s.messages, m, answers);
    assert t.messages == s.messages + [m];
  }

  // A run only adds to the history.
  lemma {:induction false} RunExtends(run: seq<State>, i: nat, j: nat)
    requires IsRun(run) && i <= j < |run|
    ensures run[i].messages <= run[j].messages
  {
    if i < j {
      RunExtends(run, i, j - 1);
      assert if (j - 1) % 2 == 0 then LlmStep(run[j - 1], run[j]) else ToolsStep(run[j - 1], run[j]);
    }
  }

  lemma MadeCallsStay(run: seq<State>, n: nat)
    requires IsRun(run) && n < |run| && Legal(run[n].messages)
    ensures CallsHaveIds(run, n)
  {
    BlockWFIsLegal(run[n].messages);
    LegalCallsTruthy(run[n].messages);
    forall i: nat | i < n && i % 2 == 1 && run[i].messages != [] ensures IdsTruthy(run[i].Last()) {
      RunExtends(run, i, n);
      assert run[i].Last() in run[n].messages;
    }
  }

  lemma {:induction false} LegalWithIds(run: seq<State>, k: nat)
    requires IsRun(run) && 2 * k < |run| && Legal(run[0].messages) && CallsHaveIds(run, 2 * k)
    ensures Legal(run[2 * k].messages)
  {
    if k > 0 {
      LegalWithIds(run, k - 1);
      assert LlmStep(run[2 * k - 2], run[2 * k - 1]) && ToolsStep(run[2 * k - 1], run[2 * k]);
      assert run[2 * k - 1].messages != [];
      assert IdsTruthy(run[2 * k - 1].Last());
      hide IdsTruthy, LlmStep, ToolsStep, Legal, IsRun, CallsHaveIds;
      PassKeepsLegality(run[2 * k - 2], run[2 * k - 1], run[2 * k]);
    }
  }

  // What a run began with is legal if what it has come to is.
  lemma StartIsLegal(run: seq<State>, n: nat)
    requires IsRun(run) && n < |run| && Legal(run[n].messages)
    ensures Legal(run[0].messages)
  {
    if n > 0 {
      assert LlmStep(run[0], run[1]);
      RunExtends(run, 1, n);
      var ms, all := run[0].messages, run[n].messages;
      assert run[1].messages == ms + [run[1].Last()] && run[1].Last().AI?;
      assert all == ms + all[|ms|..] && all[|ms|..][0] == run[1].Last();
      LegalPrefix(ms, all[|ms|..]);
    }
  }

  // A history is legal when the model is about to see it, exactly if it was legal at the
  // start and every call made so far has an id.
  lemma LegalBeforeModel(run: seq<State>, k: nat)
    requires IsRun(run) && 2 * k < |run|
    ensures Legal(run[2 * k].messages) <==> Legal(run[0].messages) && CallsHaveIds(run, 2 * k)
  {
    hide CallsHaveIds, IsRun, Legal;
    if Legal(run[0].messages) && CallsHaveIds(run, 2 * k) { LegalWithIds(run, k); }
    if Legal(run[2 * k].messages) {
      MadeCallsStay(run, 2 * k);
      StartIsLegal(run, 2 * k);
    }
  }

  // One pass adds the same ids to the called and to the answered ones.
  lemma PassKeepsPairs(s: State, t: State, u: State)
    requires PairClosed(s.messages) && LlmStep(s, t) && ToolsStep(t, u)
    ensures PairClosed(u.messages)
  {
    var tool: CallId -> string :| u == t.(messages := t.messages + ToolAnswers(t, tool));
    var m, answers := t.Last(), ToolAnswers(t, tool);
    assert u.messages == s.messages + ([m] + answers + []);
    AnswersMatch(m, answers);
    UnitIds(m, answers, []);
    IdsConcat(s.messages, [m] + answers + []);
  }

  lemma {:induction false} PairedBeforeModel(run: seq<State>, k: nat)
    requires IsRun(run) && 2 * k < |run| && PairClosed(run[0].messages)
    ensures PairClosed(run[2 * k].messages)
  {
    if k > 0 {
      PairedBeforeModel(run, k - 1);
      assert LlmStep(run[2 * k - 2], run[2 * k - 1]) && ToolsStep(run[2 * k - 1], run[2 * k]);
      PassKeepsPairs(run[2 * k - 2], run[2 * k - 1], run[2 * k]);
    }
  }

  // The last message of a finished run is a plain one.
  lemma FinalMessage(run: seq<State>) returns (n: nat, m: Msg)
    requires IsFinished(run)
    ensures 2 * n + 2 == |run| && m.AI? && m.calls == []
    ensures run[2 * n + 1].messages == run[2 * n].messages + [m] && run[2 * n + 1].Last() == m
  {
    n := (|run| - 2) / 2;
    NoCallLeftPending(run, |run| - 1);
    assert LlmStep(run[2 * n], run[2 * n + 1]);
    m := run[2 * n + 1].Last();
  }

  // Whatever ids the model gives, the final clean-up finds nothing to change after a run.
  lemma FinishedRunIsClean(run: seq<State>)
    requires IsFinished(run) && PairClosed(run[0].messages)
    ensures Mend(run[|run| - 1].messages) == run[|run| - 1].messages
  {
    var n, m := FinalMessage(run);
    PairedBeforeModel(run, n);
    UnitIds(m, [], []);
    assert [m] + [] + [] == [m];
    IdsConcat(run[2 * n].messages, [m]);
    MendIdentity(run[|run| - 1].messages);
  }

  // A finished run leaves a legal history exactly if it began with one and every call made in
  // it has an id.
  lemma FinishedRunIsLegal(run: seq<State>)
    requires IsFinished(run)
    ensures Legal(run[|run| - 1].messages) <==> Legal(run[0].messages) && CallsHaveIds(run, |run|)
  {
    hide Legal;
    var n, m := FinalMessage(run);
    LegalBeforeModel(run, n);
    if Legal(run[0].messages) && CallsHaveIds(run, |run|) {
      assert CallsHaveIds(run, 2 * n);
      PlainAppend(run[2 * n].messages, m);
    }
    if Legal(run[2 * n + 1].messages) {
      MadeCallsStay(run, 2 * n + 1);
      StartIsLegal(run, 2 * n + 1);
    }
  }

  // Every turn that begins with trimming ends with nothing to clean up, whatever the stored
  // history and the budget; and it ends legal exactly if it was trimmed to a legal history
  // and every call made has an id.
  lemma TrimmedTurnIsClean(history: seq<Msg>, maxTokens: int, run: seq<State>)
    requires IsFinished(run) && run[0].messages == Trim(history, maxTokens)
    ensures Mend(run[|run| - 1].messages) == run[|run| - 1].messages
    ensures Legal(run[|run| - 1].messages) <==> Legal(Trim(history, maxTokens)) && CallsHaveIds(run, |run|)
  {
    TrimmedIsPaired(history, maxTokens);
    hide Trim, Mend, Legal, CallsHaveIds;
    FinishedRunIsClean(run);
    FinishedRunIsLegal(run);
  }

  lemma TrimmedIsPaired(history: seq<Msg>, maxTokens: int)
    ensures PairClosed(Trim(history, maxTokens))
  {
    hide Mend, Kept, Tokens, Pinned;
    if history != [] {
      MendCloses(history);
      MendCloses(Pinned(history) + Kept(history, maxTokens));
    } else {
      assert CalledIds(Trim(history, maxTokens)) == {} == AnsweredIds(Trim(history, maxTokens));
    }
  }

  // A call without an id leaves a history that is not legal, though the tool has answered
  // it and the clean-up keeps both.
  lemma CallWithoutIdStays() returns (run: seq<State>)
    ensures IsFinished(run) && Legal(run[0].messages)
    ensures !Legal(run[|run| - 1].messages) && Mend(run[|run| - 1].messages) == run[|run| - 1].messages
  {
    hide Legal, Mend;
    var start := State([Human("go on")], 3);
    var asked := AfterModel(start, "", [NoId]);
    var tool: CallId -> string := _ => "done";
    var answered := asked.(messages := asked.messages + ToolAnswers(asked, tool));
    var final := AfterModel(answered, "that was all", []);
    run := [start, asked, answered, final];
    assert asked == AfterModel(start, "", [NoId]);
    IsLlmStep(start, asked);
    IsToolsStep(asked, tool);
    assert final == AfterModel(answered, "that was all", []);
    IsLlmStep(answered, final);
    assert LlmStep(run[0], run[1]) && ToolsStep(run[1], run[2]) && LlmStep(run[2], run[3]);
    OneHumanIsLegal("go on");
    LegalIdsMatch(start.messages);
    FinishedRunIsClean(run);
    FinishedRunIsLegal(run);
    assert NoId in run[1].Last().Needed();
    assert !IdsTruthy(run[1].Last());
  }

  lemma OneHumanIsLegal(text: string)
    ensures Legal([Human(text)]) && BlockWF([Human(text)])
  {
    BlockWFIsLegal([Human(text)]);
  }

  /* ----- the compiled graph ----- */

  // One visit to the llm node: the requests sent, of which the last one has been answered.
  ghost predicate Visited(model: Model, c: Compaction, s: State, requests: seq<seq<Msg>>, next: State) {
    && requests != [] && requests[0] == (if c.fits(Repair(s.messages)) then Repair(s.messages) else c.micro(Repair(s.messages)))
    && (forall k: nat | k + 1 < |requests| :: Retried(model, c, requests, k))
    && var answer := model(|requests| - 1, requests[|requests| - 1]);
    answer.Answer? && Takes(s, answer.text, answer.calls, next)
  }

  ghost predicate AnsweredByModel(model: Model, c: Compaction, s: State, next: State) {
    exists requests :: Visited(model, c, s, requests, next)
  }

  // A visit that comes to no answer: everything that could be tried has been.
  ghost predicate GaveUp(model: Model, c: Compaction, s: State, maxRetries: int, isCompressor: bool) {
    exists requests :: FailedVisit(model, c, s, requests, maxRetries, isCompressor)
  }

  ghost predicate FailedVisit(model: Model, c: Compaction, s: State, requests: seq<seq<Msg>>, maxRetries: int, isCompressor: bool) {
    && requests != [] && requests[0] == (if c.fits(Repair(s.messages)) then Repair(s.messages) else c.micro(Repair(s.messages)))
    && (forall k: nat | k + 1 < |requests| :: Retried(model, c, requests, k))
    && Exhausted(model, c, requests, maxRetries, isCompressor)
  }

  // One visit to the tools node: every call of the last message is answered by its tool, in
  // order, and nothing else changes.
  ghost predicate AnsweredByTools(tool: (nat, CallId) -> string, visit: nat, s: State, next: State) {
    s.messages != [] && s.Last().AI? &&
    var n, calls := |s.messages|, s.Last().calls;
    && next.remaining == s.remaining && |next.messages| == n + |calls| && s.messages <= next.messages
    && forall i | 0 <= i < |calls| :: next.messages[n + i] == Tool(calls[i], tool(visit, calls[i]))
  }

  ghost predicate AllAnswered(run: seq<State>, model: nat -> Model, tool: (nat, CallId) -> string, c: Compaction) {
    && (forall k: nat | 2 * k + 1 < |run| :: AnsweredByModel(model(k), c, run[2 * k], run[2 * k + 1]))
    && (forall k: nat | 2 * k + 2 < |run| :: AnsweredByTools(tool, k, run[2 * k + 1], run[2 * k + 2]))
  }

  // Runs the graph until the end node, or until a model call raises. The bound on all runs
  // is what makes the loop terminate.
  method RunGraph(initial: State, model: nat -> Model, tool: (nat, CallId) -> string, c: Compaction,
                  maxRetries: int, isCompressor: bool)
    returns (final: State, raised: bool, ghost run: seq<State>)
    ensures IsRun(run) && run[0] == initial && final == run[|run| - 1]
    ensures if raised then |run| % 2 == 1 else IsFinished(run)
    ensures AllAnswered(run, model, tool, c)
    ensures raised ==> GaveUp(model(|run| / 2), c, final, maxRetries, isCompressor)
    ensures initial.messages <= final.messages
    ensures !raised ==> final.messages != [] && final.Last().AI? && !final.Last().Caller()
  {
    hide LlmStep, ToolsStep, IsRun, Visited, AnsweredByTools, Takes, AfterModel, AllAnswered, Retried, Retries, GaveUp, Exhausted, Repair, Legal, ToolAnswers;
    final, raised, run := initial, false, [initial];
    StartRun(initial);
    NothingAsked(initial, model, tool, c);
    var visit := 0;
    while true
      invariant visit >= 0 && |run| == 2 * visit + 1 && !raised
      invariant IsRun(run) && run[0] == initial && final == run[|run| - 1]
      invariant initial.messages <= final.messages
      invariant AllAnswered(run, model, tool, c)
      decreases if initial.remaining > 0 then initial.remaining - visit else 1 - visit
    {
      RunIsBounded(run);
      var ok, next;
      ghost var requests;
      ok, next, requests := LlmNode(final, model(visit), c, maxRetries, isCompressor);
      if !ok {
        raised := true;
        FailureIs(model(visit), c, final, requests, maxRetries, isCompressor);
        return;
      }
      VisitIs(model(visit), c, final, requests, next);
      ModelAnswered(run, model, tool, c, visit, requests, next);
      IsLlmStep(final, next);
      ExtendRun(run, next);
      final, run := next, run + [next];
      NoCallLeftPending(run, |run| - 1);
      if ShouldContinue(final) == ToEnd {
        return;
      }
      var answer := id => tool(visit, id);
      next := final.(messages := final.messages + ToolAnswers(final, answer));
      IsToolsStep(final, answer);
      EachIsAnswered(final, tool, visit);
      ToolsAnswered(run, model, tool, c, visit, next);
      ExtendRun(run, next);
      final, run := next, run + [next];
      visit := visit + 1;
      RunIsBounded(run);
    }
  }

  lemma StartRun(s: State)
    ensures IsRun([s])
  {}

  lemma IsLlmStep(s: State, next: State)
    requires exists text, calls :: next == AfterModel(s, text, calls)
    ensures LlmStep(s, next) && s.messages <= next.messages
  {}

  lemma VisitIs(model: Model, c: Compaction, s: State, requests: seq<seq<Msg>>, next: State)
    requires requests != [] && requests[0] == (if c.fits(Repair(s.messages)) then Repair(s.messages) else c.micro(Repair(s.messages)))
    requires forall k: nat | k + 1 < |requests| :: Retried(model, c, requests, k)
    requires var answer := model(|requests| - 1, requests[|requests| - 1]);
      answer.Answer? && Takes(s, answer.text, answer.calls, next)
    ensures Visited(model, c, s, requests, next)
  {}

  lemma FailureIs(model: Model, c: Compaction, s: State, requests: seq<seq<Msg>>, maxRetries: int, isCompressor: bool)
    requires requests != [] && requests[0] == (if c.fits(Repair(s.messages)) then Repair(s.messages) else c.micro(Repair(s.messages)))
    requires forall k: nat | k + 1 < |requests| :: Retried(model, c, requests, k)
    requires Exhausted(model, c, requests, maxRetries, isCompressor)
    ensures GaveUp(model, c, s, maxRetries, isCompressor)
  {
    assert FailedVisit(model, c, s, requests, maxRetries, isCompressor);
  }

  lemma NothingAsked(s: State, model: nat -> Model, tool: (nat, CallId) -> string, c: Compaction)
    ensures AllAnswered([s], model, tool, c)
  {}

  lemma ModelAnswered(run: seq<State>, model: nat -> Model, tool: (nat, CallId) -> string, c: Compaction, visit: nat,
                      requests: seq<seq<Msg>>, next: State)
    requires AllAnswered(run, model, tool, c) && |run| == 2 * visit + 1
    requires Visited(model(visit), c, run[2 * visit], requests, next)
    ensures AllAnswered(run + [next], model, tool, c)
  {
    hide Visited, AnsweredByTools;
    forall k: nat | 2 * k + 1 < |run + [next]| ensures AnsweredByModel(model(k), c, (run + [next])[2 * k], (run + [next])[2 * k + 1]) {
      if k < visit { assert AnsweredByModel(model(k), c, run[2 * k], run[2 * k + 1]); }
    }
  }

  lemma ToolsAnswered(run: seq<State>, model: nat -> Model, tool: (nat, CallId) -> string, c: Compaction, visit: nat, next: State)
    requires AllAnswered(run, model, tool, c) && |run| == 2 * visit + 2
    requires AnsweredByTools(tool, visit, run[2 * visit + 1], next)
    ensures AllAnswered(run + [next], model, tool, c)
  {
    hide AnsweredByModel, AnsweredByTools;
    forall k: nat | 2 * k + 2 < |run + [next]| ensures AnsweredByTools(tool, k, (run + [next])[2 * k + 1], (run + [next])[2 * k + 2]) {
      if k < visit { assert AnsweredByTools(tool, k, run[2 * k + 1], run[2 * k + 2]); }
    }
  }

  lemma EachIsAnswered(s: State, tool: (nat, CallId) -> string, visit: nat)
    requires s.messages != [] && s.Last().Caller() && RoundsGuardAllows(s)
    ensures var answer := id => tool(visit, id);
      AnsweredByTools(tool, visit, s, s.(messages := s.messages + ToolAnswers(s, answer)))
  {}

  lemma IsToolsStep(s: State, tool: CallId -> string)
    requires ShouldContinue(s) == ToTools
    ensures ToolsStep(s, s.(messages := s.messages + ToolAnswers(s, tool)))
  {}

  lemma ExtendRun(run: seq<State>, s: State)
    requires IsRun(run)
    requires var last := run[|run| - 1]; if |run| % 2 == 1 then LlmStep(last, s) else ToolsStep(last, s)
    ensures IsRun(run + [s])
  {}
}
