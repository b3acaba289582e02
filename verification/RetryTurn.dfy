/**
 The token that lets a user retry a failed turn, across crashes: what is in memory, what is
 on disk, and the saves between the two.
 */
module RetryTurn {
  import opened Outcomes

  type Turn = nat

  // failed_turn, as far as retrying goes.
  datatype Token = Token(turn: Turn, retryable: bool)

  datatype Activity =
    | Idle
    | Confirming(turn: Turn)                          // a retry waits for the save it forced
    | Running(turn: Turn, byUser: bool, toolStarted: bool)

  datatype State = State(
    mem: Option<Token>, disk: Option<Token>,
    flight: Option<Option<Token>>,                    // serialised by the holder of the save lock
    activity: Activity,
    next: Turn,                                       // turns from here on are new
    touched: set<Turn>)                               // turns in which some tool has started

  datatype Step =
    | NewTurn(byUser: bool) | Retry | ConfirmOk | ConfirmFails | CancelRetry
    | ToolStart | Fail | Succeed | Cancel
    | Serialise | WriteOk | WriteFails | Crash

  ghost predicate Init(s: State) {
    s.mem == None && s.disk == None && s.flight == None && s.activity == Idle && s.touched == {}
  }

  predicate Enabled(s: State, step: Step) {
    match step
    case NewTurn(_) => s.activity.Idle?
    case Retry => s.activity.Idle? && s.mem.Some? && s.mem.value.retryable
    // the forced save has the save lock
    case ConfirmOk => s.activity.Confirming? && s.flight.None?
    case ConfirmFails => s.activity.Confirming? && s.flight.None?
    case CancelRetry => s.activity.Confirming?
    case ToolStart => s.activity.Running?
    case Fail => s.activity.Running?
    case Succeed => s.activity.Running?
    case Cancel => s.activity.Running?
    case Serialise => s.flight.None?
    case WriteOk => s.flight.Some?
    case WriteFails => s.flight.Some?
    case Crash => true
  }

  function Apply(s: State, step: Step): State
    requires Enabled(s, step)
  {
    match step
    case NewTurn(byUser) => s.(mem := None, activity := Running(s.next, byUser, false), next := s.next + 1)
    case Retry => s.(mem := Some(s.mem.value.(retryable := false)), activity := Confirming(s.mem.value.turn))
    case ConfirmOk => s.(disk := s.mem, mem := None, activity := Running(s.activity.turn, true, false))
    // the save is forced but not strict: the retry goes on without it
    case ConfirmFails => s.(mem := None, activity := Running(s.activity.turn, true, false))
    case CancelRetry => s.(activity := Idle)
    case ToolStart => s.(activity := s.activity.(toolStarted := true), touched := s.touched + {s.activity.turn})
    case Fail =>
      s.(mem := Some(Token(s.activity.turn, s.activity.byUser && !s.activity.toolStarted)), activity := Idle)
    case Succeed => s.(mem := None, activity := Idle)
    case Cancel => s.(activity := Idle)
    case Serialise => s.(flight := Some(s.mem))
    case WriteOk => s.(disk := s.flight.value, flight := None)
    case WriteFails => s.(flight := None)
    case Crash => s.(mem := s.disk, flight := None, activity := Idle)
  }

  // The turn could be retried from here on.
  predicate Offers(token: Option<Token>, turn: Turn) {
    token.Some? && token.value.retryable && token.value.turn == turn
  }

  // The save a retry forces reaches the disk, or fails where the disk does not offer the turn;
  // other saves may fail at any time.
  predicate Harmless(s: State, step: Step) {
    step.ConfirmFails? && s.activity.Confirming? ==> !Offers(s.disk, s.activity.turn)
  }

  ghost predicate Leads(s: State, steps: seq<Step>, t: State)
    decreases |steps|
  {
    if steps == [] then s == t
    else Enabled(s, steps[0]) && Harmless(s, steps[0]) && Leads(Apply(s, steps[0]), steps[1..], t)
  }

  ghost predicate Reachable(t: State) {
    exists s, steps :: Init(s) && Leads(s, steps, t)
  }

  predicate OffersAnywhere(s: State, turn: Turn) {
    Offers(s.mem, turn) || Offers(s.disk, turn) || (s.flight.Some? && Offers(s.flight.value, turn))
  }

  ghost predicate Inv(s: State) {
    // nothing offers a turn in which a tool has started, or one that has not begun
    && (forall turn | turn in s.touched || turn >= s.next :: !OffersAnywhere(s, turn))
    && (forall turn | turn in s.touched :: turn < s.next)
    && (s.mem.Some? ==> s.mem.value.turn < s.next) && (s.disk.Some? ==> s.disk.value.turn < s.next)
    && (s.flight.Some? && s.flight.value.Some? ==> s.flight.value.value.turn < s.next)
    && (!s.activity.Idle? ==> s.activity.turn < s.next)
    && (s.activity.Running? ==> s.mem.None? && !OffersAnywhere(s, s.activity.turn))
    && (s.activity.Running? && s.activity.turn in s.touched ==> s.activity.toolStarted)
    && (s.activity.Confirming? ==>
          s.mem == Some(Token(s.activity.turn, false)) && s.activity.turn !in s.touched)
  }

  lemma StepKeepsInv(s: State, step: Step)
    requires Inv(s) && Enabled(s, step) && Harmless(s, step)
    ensures Inv(Apply(s, step))
  {}

  lemma {:induction false} RunKeepsInv(s: State, steps: seq<Step>, t: State)
    requires Inv(s) && Leads(s, steps, t)
    ensures Inv(t)
    decreases |steps|
  {
    if steps != [] {
      StepKeepsInv(s, steps[0]);
      RunKeepsInv(Apply(s, steps[0]), steps[1..], t);
    }
  }

  lemma ReachableInv(t: State)
    requires Reachable(t)
    ensures Inv(t)
  {
    var s, steps :| Init(s) && Leads(s, steps, t);
    RunKeepsInv(s, steps, t);
  }

  // Whatever turn memory or disk offers to retry, no tool has started in any attempt at it,
  // through any number of retries, failed background saves, harmless failures of forced ones
  // and crashes; so none has when a retry is clicked or its attempt begins.
  lemma RetryIsSafe(s: State)
    requires Reachable(s)
    ensures forall turn | OffersAnywhere(s, turn) :: turn !in s.touched
    ensures Enabled(s, Retry) ==> s.mem.value.turn !in s.touched
    ensures Enabled(s, ConfirmOk) || Enabled(s, ConfirmFails) ==> s.activity.turn !in s.touched
  {
    ReachableInv(s);
  }

  // Some way to go on ends where a turn is offered again although a tool has started in it.
  ghost predicate MayRepeat(s: State) {
    exists steps, t, turn :: Leads(s, steps, t) && turn in t.touched && Offers(t.mem, turn)
  }

  // When the forced save fails the retry goes on all the same. That is harmful exactly when
  // the disk still offers the turn.
  lemma FailedConfirmationIsHarmfulIff(s: State)
    requires Reachable(s) && Enabled(s, ConfirmFails)
    ensures MayRepeat(Apply(s, ConfirmFails)) <==> Offers(s.disk, s.activity.turn)
  {
    ReachableInv(s);
    var turn, t := s.activity.turn, Apply(s, ConfirmFails);
    if Offers(s.disk, turn) {
      var t1 := Apply(t, ToolStart);
      var t2 := Apply(t1, Crash);
      assert Leads(t2, [], t2);
      LeadsStep(t1, Crash, [], t2);
      LeadsStep(t, ToolStart, [Crash], t2);
      assert turn in t2.touched && Offers(t2.mem, turn);
    } else {
      StepKeepsInv(s, ConfirmFails);
      forall steps, u | Leads(t, steps, u) ensures Inv(u) {
        RunKeepsInv(t, steps, u);
      }
    }
  }

  // It can come to that: a turn fails and is saved as retryable, and the save forced by the
  // retry fails.
  lemma HarmIsReachable(s: State) returns (t: State)
    requires Init(s)
    ensures Reachable(t) && Enabled(t, ConfirmFails) && MayRepeat(Apply(t, ConfirmFails))
  {
    var s1 := Apply(s, NewTurn(true));
    var s2 := Apply(s1, Fail);
    var s3 := Apply(s2, Serialise);
    var s4 := Apply(s3, WriteOk);
    t := Apply(s4, Retry);
    assert Leads(t, [], t);
    LeadsStep(s4, Retry, [], t);
    LeadsStep(s3, WriteOk, [Retry], t);
    LeadsStep(s2, Serialise, [WriteOk, Retry], t);
    LeadsStep(s1, Fail, [Serialise, WriteOk, Retry], t);
    LeadsStep(s, NewTurn(true), [Fail, Serialise, WriteOk, Retry], t);
    assert Reachable(t);
    FailedConfirmationIsHarmfulIff(t);
  }

  lemma LeadsStep(s: State, step: Step, rest: seq<Step>, t: State)
    requires Enabled(s, step) && Harmless(s, step) && Leads(Apply(s, step), rest, t)
    ensures Leads(s, [step] + rest, t)
  {
    assert ([step] + rest)[1..] == rest;
  }
}
