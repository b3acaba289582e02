/**
 The token ledger of a session: one entry per model call, and totals per model that are kept
 beside it.
 */
module TokenLedger {
  import opened Outcomes
  import opened Sequences
  import opened TokenUsage

  type Model = string

  // callId is the session and the index at the time of the call; no run id is "".
  datatype Call = Call(callId: (string, nat), index: nat, model: Model, runId: string, usage: Usage)

  datatype Totals = Totals(prompt: nat, completion: nat, total: nat, cached: nat, reasoning: nat, calls: nat)

  const ZERO := Totals(0, 0, 0, 0, 0, 0)

  datatype Ledger = Ledger(
    session: string,
    count: nat,                        // _llm_call_count
    calls: seq<Call>,                  // _token_usage_calls
    cumulative: map<Model, Totals>,    // _token_usage_cumulative
    shown: Option<nat>)                // llm_call_count of the usage shown last

  // What a session file holds of it. Empty parts are left out.
  datatype File = File(session: string, shown: Option<nat>, calls: Option<seq<Call>>, cumulative: Option<map<Model, Totals>>)

  function Plus(t: Totals, u: Usage): Totals {
    Totals(t.prompt + u.prompt, t.completion + u.completion, t.total + u.total,
           t.cached + u.cached, t.reasoning + u.reasoning, t.calls + 1)
  }

  predicate Replayed(l: Ledger, runId: string) {
    runId != "" && exists c :: c in l.calls && c.runId == runId
  }

  function TotalsOf(l: Ledger, m: Model): Totals {
    if m in l.cumulative then l.cumulative[m] else ZERO
  }

  /* ----- what is conserved ----- */

  // Each figure is counted, and so are the calls.
  datatype Counter = Tokens(f: Field) | Calls

  function Read(t: Totals, c: Counter): nat {
    match c
    case Tokens(Prompt) => t.prompt
    case Tokens(Completion) => t.completion
    case Tokens(Total) => t.total
    case Tokens(Cached) => t.cached
    case Tokens(Reasoning) => t.reasoning
    case Calls => t.calls
  }

  // What one call counts for.
  function Amount(m: Model, c: Counter): Call -> nat {
    (call: Call) =>
      if call.model != m then 0
      else match c
        case Tokens(f) => FigureOf(call.usage, f)
        case Calls => 1
  }

  // How far the totals are ahead of the calls listed.
  function Drift(l: Ledger, m: Model, c: Counter): int {
    Read(TotalsOf(l, m), c) - SumBy(Amount(m, c), l.calls)
  }

  ghost predicate SameDrift(a: Ledger, b: Ledger) {
    forall m, c :: Drift(a, m, c) == Drift(b, m, c)
  }

  // Call indexes are distinct and not above the counter, call ids are made from them, and a
  // call marked complete has figures that fit together.
  ghost predicate LedgerOK(l: Ledger) {
    && (forall i, j | 0 <= i < j < |l.calls| :: l.calls[i].index != l.calls[j].index)
    && (forall call | call in l.calls :: CallOK(l, call))
    && (l.shown.Some? ==> l.shown.value <= l.count)
  }

  predicate CallOK(l: Ledger, call: Call) {
    && 0 < call.index <= l.count && call.callId == (l.session, call.index)
    && (call.usage.complete ==> call.usage.Consistent())
  }

  // The ledger with one more call.
  function Added(l: Ledger, m: Model, runId: string, usage: Usage): Ledger {
    var n := l.count + 1;
    Ledger(l.session, n, l.calls + [Call((l.session, n), n, m, runId, usage)],
           l.cumulative[m := Plus(TotalsOf(l, m), usage)], Some(n))
  }

  // One call is listed, and the totals of its model, and only these, rise by its figures.
  ghost predicate CountedOnce(l: Ledger, l': Ledger, m: Model, runId: string, usage: Usage) {
    var before := if m in l.cumulative then l.cumulative[m] else ZERO;
    && l'.session == l.session && l'.count == l.count + 1 && l'.shown == Some(l'.count)
    && l'.calls == l.calls + [Call((l.session, l'.count), l'.count, m, runId, usage)]
    && l'.cumulative.Keys == l.cumulative.Keys + {m}
    && (forall n | n in l.cumulative && n != m :: l'.cumulative[n] == l.cumulative[n])
    && var after := l'.cumulative[m];
    && after.prompt == before.prompt + FigureOf(usage, Prompt)
    && after.completion == before.completion + FigureOf(usage, Completion)
    && after.total == before.total + FigureOf(usage, Total)
    && after.cached == before.cached + FigureOf(usage, Cached)
    && after.reasoning == before.reasoning + FigureOf(usage, Reasoning)
    && after.calls == before.calls + 1
  }

  lemma AddedCounts(l: Ledger, m: Model, runId: string, usage: Usage)
    ensures CountedOnce(l, Added(l, m, runId, usage), m, runId, usage)
  {}

  lemma AddedKeepsDrift(l: Ledger, m: Model, runId: string, usage: Usage)
    ensures SameDrift(l, Added(l, m, runId, usage))
  {
    var call := Call((l.session, l.count + 1), l.count + 1, m, runId, usage);
    forall m', c ensures Drift(l, m', c) == Drift(Added(l, m, runId, usage), m', c) {
      SumBySnoc(Amount(m', c), l.calls, call);
    }
  }

  lemma AddedIsOK(l: Ledger, m: Model, runId: string, usage: Usage)
    requires LedgerOK(l) && (usage.complete ==> usage.Consistent())
    ensures LedgerOK(Added(l, m, runId, usage))
    ensures forall c | c in l.calls :: c.callId != (l.session, l.count + 1)
  {
    forall c | c in l.calls ensures CallOK(Added(l, m, runId, usage), c) && c.callId != (l.session, l.count + 1) && c.index <= l.count {
      assert CallOK(l, c);
    }
  }

  lemma CounterMovesOn(l: Ledger)
    requires LedgerOK(l)
    ensures LedgerOK(l.(count := l.count + 1)) && SameDrift(l, l.(count := l.count + 1)) && SameDrift(l, l)
  {
    forall c | c in l.calls ensures CallOK(l.(count := l.count + 1), c) { assert CallOK(l, c); }
  }

  /* ----- what can happen to a ledger ----- */

  datatype Event =
    // a response of the model; the estimates shown with it may fail to compute
    | Response(reported: ResponseUsage, metadata: MetadataUsage, model: Model, runId: string, estimatesFail: bool)
    // an aborted or cancelled turn gives back messages, not usage
    | RolledBack
    // saved and loaded again
    | Reloaded

  function After(l: Ledger, e: Event): Ledger {
    match e
    case Response(reported, metadata, model, runId, estimatesFail) =>
      if Replayed(l, runId) then l
      else if estimatesFail then l.(count := l.count + 1)
      else Added(l, model, runId, Normalized(Sources(reported, metadata)))
    case RolledBack => l
    case Reloaded => Restored(Saved(l))
  }

  function Saved(l: Ledger): File {
    File(l.session, l.shown, if l.calls == [] then None else Some(l.calls),
         if l.cumulative == map[] then None else Some(l.cumulative))
  }

  function MaxIndex(calls: seq<Call>): (r: nat)
    ensures forall c | c in calls :: c.index <= r
    ensures r == 0 || exists c :: c in calls && c.index == r
  {
    if calls == [] then 0
    else
      var front, last := MaxIndex(calls[..|calls| - 1]), calls[|calls| - 1];
      assert calls == calls[..|calls| - 1] + [last];
      if last.index > front then last.index else front
  }

  lemma NothingListed(calls: seq<Call>)
    requires calls == []
    ensures MaxIndex(calls) == 0
  {}

  lemma OneMoreListed(calls: seq<Call>, i: nat)
    requires i < |calls|
    ensures MaxIndex(calls[..i + 1]) == if calls[i].index > MaxIndex(calls[..i]) then calls[i].index else MaxIndex(calls[..i])
  {
    assert calls[..i + 1][..i] == calls[..i];
  }

  function Restored(st: File): Ledger {
    var calls := if st.calls.Some? then st.calls.value else [];
    var shown := if st.shown.Some? then st.shown.value else 0;
    Ledger(st.session, if MaxIndex(calls) > shown then MaxIndex(calls) else shown, calls,
           if st.cumulative.Some? then st.cumulative.value else map[], st.shown)
  }

  // Loading what was saved gives every call and total back; the counter is the least one
  // that is above all of them.
  lemma ReloadKeepsLedger(l: Ledger)
    requires LedgerOK(l)
    ensures var r := After(l, Reloaded);
      && LedgerOK(r) && SameDrift(l, r)
      && r.calls == l.calls && r.cumulative == l.cumulative && r.shown == l.shown && r.count <= l.count
  {
    var r := After(l, Reloaded);
    assert r.calls == l.calls && r.cumulative == l.cumulative && r.session == l.session && r.shown == l.shown;
    forall c | c in l.calls ensures CallOK(r, c) { assert CallOK(l, c); }
    if c :| c in l.calls && c.index == MaxIndex(l.calls) { assert CallOK(l, c); }
    hide MaxIndex, CallOK;
  }

  lemma EventKeepsLedger(l: Ledger, e: Event)
    requires LedgerOK(l)
    ensures LedgerOK(After(l, e)) && SameDrift(l, After(l, e))
  {
    hide LedgerOK, SameDrift, Normalized, Added, Restored;
    CounterMovesOn(l);
    match e
    case Response(reported, metadata, model, runId, _) =>
      var usage := Normalized(Sources(reported, metadata));
      CompleteIff(reported, metadata);
      AddedIsOK(l, model, runId, usage);
      AddedKeepsDrift(l, model, runId, usage);
    case RolledBack =>
    case Reloaded => ReloadKeepsLedger(l);
  }

  function Run(l: Ledger, events: seq<Event>): Ledger
    decreases |events|
  {
    if events == [] then l else Run(After(l, events[0]), events[1..])
  }

  // One more event comes behind the others.
  lemma {:induction false} RunSnoc(l: Ledger, events: seq<Event>, e: Event)
    ensures Run(l, events + [e]) == After(Run(l, events), e)
    decreases |events|
  {
    hide After;
    if events == [] {
      assert Run(l, [e]) == Run(After(l, e), []) by { assert [e][1..] == []; }
    } else {
      assert (events + [e])[1..] == events[1..] + [e];
      RunSnoc(After(l, events[0]), events[1..], e);
    }
  }

  // Through any sequence of new calls, replays, failures, rollbacks and reloads, the totals
  // of each model stay exactly as far ahead of the listed calls as they were, field by field,
  // and call indexes stay distinct and within the counter.
  lemma {:induction false} RunsConserve(l: Ledger, events: seq<Event>)
    requires LedgerOK(l)
    ensures LedgerOK(Run(l, events)) && SameDrift(l, Run(l, events))
    decreases |events|
  {
    if events != [] {
      EventKeepsLedger(l, events[0]);
      RunsConserve(After(l, events[0]), events[1..]);
    }
  }

  // A run that has been accounted for is never accounted for again.
  lemma {:induction false} ReplayIsIgnored(l: Ledger, events: seq<Event>, e: Event)
    requires LedgerOK(l) && e.Response? && Replayed(l, e.runId)
    ensures Replayed(Run(l, events), e.runId) && After(Run(l, events), e) == Run(l, events)
    decreases |events|
  {
    if events != [] {
      EventKeepsLedger(l, events[0]);
      CallsOnlyGrow(l, events[0]);
      ReplayIsIgnored(After(l, events[0]), events[1..], e);
    }
  }

  lemma CallsOnlyGrow(l: Ledger, e: Event)
    requires LedgerOK(l)
    ensures l.calls <= After(l, e).calls
  {
    if e.Reloaded? { ReloadKeepsLedger(l); }
  }

  class TokenAccount {
    const session: string
    var count: nat
    var calls: seq<Call>
    var cumulative: map<Model, Totals>
    var shown: Option<nat>

    function State(): Ledger
      reads this
    {
      Ledger(session, count, calls, cumulative, shown)
    }

    constructor (session: string)
      ensures State() == Ledger(session, 0, [], map[], None) && LedgerOK(State())
      ensures forall m, c :: Drift(State(), m, c) == 0
    {
      this.session := session;
      count, calls, cumulative, shown := 0, [], map[], None;
    }

    constructor FromFile(st: File)
      ensures State() == Restored(st)
      ensures session == st.session && shown == st.shown
      ensures calls == (if st.calls.Some? then st.calls.value else []) && cumulative == (if st.cumulative.Some? then st.cumulative.value else map[])
      // the counter is the least one that no index and no usage shown exceeds
      ensures (forall c | c in calls :: c.index <= count) && (shown.Some? ==> shown.value <= count)
      ensures count == 0 || shown == Some(count) || exists c :: c in calls && c.index == count
    {
      session := st.session;
      shown := st.shown;
      cumulative := if st.cumulative.Some? then st.cumulative.value else map[];
      calls := if st.calls.Some? then st.calls.value else [];
      count := if st.shown.Some? then st.shown.value else 0;
      new;
      ghost var loaded := State();
      var highest := 0;
      hide MaxIndex;
      NothingListed([]);
      for i := 0 to |calls|
        invariant State() == loaded && calls == loaded.calls
        invariant highest == MaxIndex(calls[..i])
      {
        OneMoreListed(calls, i);
        if calls[i].index > highest { highest := calls[i].index; }
      }
      assert calls[..|calls|] == calls;
      if highest > count { count := highest; }
    }

    // One response of the model. A run that has been accounted for already changes nothing;
    // when the estimates cannot be computed only the counter has moved on.
    method Record(reported: ResponseUsage, metadata: MetadataUsage, model: Model, runId: string, estimatesFail: bool)
      returns (added: bool)
      requires LedgerOK(State())
      modifies this`count, this`calls, this`cumulative, this`shown
      ensures State() == After(old(State()), Response(reported, metadata, model, runId, estimatesFail))
      ensures LedgerOK(State()) && SameDrift(old(State()), State())
      ensures var replayed := runId != "" && exists c :: c in old(calls) && c.runId == runId;
        && (replayed ==> !added && State() == old(State()))
        && (!replayed && estimatesFail ==> !added && State() == old(State()).(count := old(count) + 1))
        && (!replayed && !estimatesFail ==>
              added && CountedOnce(old(State()), State(), model, runId, Normalized(Sources(reported, metadata))))
    {
      hide CountedOnce;
      hide LedgerOK, SameDrift, Normalized;
      ghost var before := State();
      EventKeepsLedger(before, Response(reported, metadata, model, runId, estimatesFail));
      if Replayed(State(), runId) { return false; }
      var usage := Normalized(Sources(reported, metadata));
      CompleteIff(reported, metadata);
      AddedIsOK(before, model, runId, usage);
      count := count + 1;
      if estimatesFail {
        assert State() == before.(count := before.count + 1);
        return false;
      }
      shown := Some(count);
      var call := Call((session, count), count, model, runId, usage);
      var isNew := !exists c :: c in calls && c.callId == call.callId;
      if isNew {
        calls := calls + [call];
      }
      if model !in cumulative {
        cumulative := cumulative[model := ZERO];
      }
      if isNew {
        cumulative := cumulative[model := Plus(cumulative[model], usage)];
      }
      assert cumulative == before.cumulative[model := Plus(TotalsOf(before, model), usage)];
      assert State() == Added(before, model, runId, usage);
      AddedCounts(before, model, runId, usage);
      added := true;
    }
  }
}
