/**
 One agent session as a state machine: the invocation scope with its checkpoint and its
 seal, the dirty bit and the writes it triggers, and the release of the session.
 */
module SessionPersistence {

  // Whatever is serialised, up to equality.
  type Content = int

  // A cancelled invocation gives its history back; counters and the like it keeps.
  datatype Memory = Memory(history: Content, rest: Content)

  // A write first waits for its worker thread, which then serialises the session.
  datatype Flight = NoFlight | Pending(strict: bool) | Serialised(v: Memory, strict: bool)

  datatype Phase = Serving | Quiet | Saving | Saved | Retained | Detached

  datatype Session = Session(
    mem: Memory, disk: Memory,
    dirty: bool,           // _save_dirty
    unmarked: bool,        // something has changed since the session was last marked dirty
    flight: Flight,        // what the holder of the save lock is doing
    active: bool,          // the holder of the invoke lock is inside the scope
    checkpoint: Content,   // the history at the start of the active invocation
    sealed: bool,          // _termination_requested
    phase: Phase)          // how far a release has come

  datatype Step =
    | Enter | Refused | Mutate(m: Memory) | Cancel | Leave
    | Mark | BeginFlush | CleanFlush | Serialise | WriteOk | WriteFails
    | Seal | Quiesce | Touch(m: Memory) | StrictFlush | GiveUp | Detach

  ghost predicate Init(s: Session) {
    && s.disk == s.mem && !s.dirty && !s.unmarked && s.flight.NoFlight?
    && !s.active && !s.sealed && s.phase.Serving?
  }

  predicate Enabled(s: Session, step: Step) {
    match step
    // the invoke lock is free; the seal is looked at once it is held
    case Enter => !s.active && !s.sealed
    case Refused => !s.active && s.sealed
    // only the active invocation writes to the session
    case Mutate(_) => s.active
    case Cancel => s.active
    case Leave => s.active
    case Mark => true
    // the save lock is free
    case BeginFlush => s.flight.NoFlight? && s.dirty
    case CleanFlush => s.flight.NoFlight? && !s.dirty
    case Serialise => s.flight.Pending?
    case WriteOk => s.flight.Serialised?
    case WriteFails => !s.flight.NoFlight?
    case Seal => true
    // cancel_active_invocation found or waited for the end of the invocation
    case Quiesce => s.sealed && !s.active && (s.phase.Serving? || s.phase.Retained?)
    // the final status and time are written and marked in one go
    case Touch(_) => s.phase.Quiet?
    case StrictFlush => s.phase.Saving? && s.flight.NoFlight?
    // the invocation did not end in time
    case GiveUp => s.sealed && s.phase.Serving?
    case Detach => s.phase.Saved?
  }

  function Apply(s: Session, step: Step): Session
    requires Enabled(s, step)
  {
    match step
    case Enter => s.(active := true, checkpoint := s.mem.history)
    case Refused => s
    case Mutate(m) => s.(mem := m, unmarked := true)
    case Cancel => s.(mem := s.mem.(history := s.checkpoint), unmarked := true, active := false)
    case Leave => s.(active := false)
    case Mark => s.(dirty := true, unmarked := false)
    case BeginFlush => s.(dirty := false, flight := Pending(false))
    case CleanFlush => s
    case Serialise => s.(flight := Serialised(s.mem, s.flight.strict))
    case WriteOk =>
      s.(disk := s.flight.v, flight := NoFlight, phase := if s.flight.strict then Saved else s.phase)
    case WriteFails =>
      s.(dirty := true, flight := NoFlight, phase := if s.flight.strict then Retained else s.phase)
    case Seal => s.(sealed := true)
    case Quiesce => s.(phase := Quiet)
    case Touch(m) => s.(mem := m, dirty := true, unmarked := false, phase := Saving)
    case StrictFlush =>
      if s.dirty then s.(dirty := false, flight := Pending(true)) else s.(phase := Saved)
    case GiveUp => s.(phase := Retained)
    case Detach => s.(phase := Detached)
  }

  // The steps can be taken one after the other, and lead from s to t.
  ghost predicate Leads(s: Session, steps: seq<Step>, t: Session)
    decreases |steps|
  {
    if steps == [] then s == t
    else Enabled(s, steps[0]) && Leads(Apply(s, steps[0]), steps[1..], t)
  }

  ghost predicate Reachable(t: Session) {
    exists s, steps :: Init(s) && Leads(s, steps, t)
  }

  ghost predicate Inv(s: Session) {
    // what is neither marked nor being written is on disk
    && (!s.dirty && !s.unmarked && s.flight.NoFlight? ==> s.disk == s.mem)
    && (!s.dirty && !s.unmarked && s.flight.Serialised? ==> s.flight.v == s.mem)
    // a release works on a sealed session that nobody is in
    && (s.phase in {Quiet, Saving, Saved, Detached} ==> s.sealed && !s.active)
    && (s.phase.Retained? ==> s.sealed)
    && (!s.flight.NoFlight? && s.flight.strict ==> s.phase.Saving?)
    // and what it has marked, serialised and written is the last state
    && (s.phase.Saving? ==> !s.unmarked)
    && (s.phase.Saving? && s.flight.Serialised? && s.flight.strict ==> s.flight.v == s.mem)
    && (s.phase in {Saved, Detached} ==> s.disk == s.mem && (s.flight.Serialised? ==> s.flight.v == s.mem))
  }

  lemma StepKeepsInv(s: Session, step: Step)
    requires Inv(s) && Enabled(s, step)
    ensures Inv(Apply(s, step))
  {}

  lemma {:induction false} RunKeepsInv(s: Session, steps: seq<Step>, t: Session)
    requires Inv(s) && Leads(s, steps, t)
    ensures Inv(t)
    decreases |steps|
  {
    if steps != [] {
      StepKeepsInv(s, steps[0]);
      RunKeepsInv(Apply(s, steps[0]), steps[1..], t);
    }
  }

  lemma ReachableInv(t: Session)
    requires Reachable(t)
    ensures Inv(t)
  {
    var s, steps :| Init(s) && Leads(s, steps, t);
    RunKeepsInv(s, steps, t);
  }

  // However mutations, marks and writes interleave: once everything is marked, no write is
  // under way and the dirty bit is clear, the file holds what memory holds.
  lemma NothingIsLost(t: Session)
    requires Reachable(t) && !t.dirty && !t.unmarked && t.flight.NoFlight?
    ensures t.disk == t.mem
  {
    ReachableInv(t);
  }

  // A release lets go of a session only when the file holds its last state, and whatever
  // writes are still to come keep it so.
  lemma DetachedIsSaved(s: Session, steps: seq<Step>, t: Session)
    requires Reachable(s) && s.phase.Detached? && Leads(s, steps, t)
    ensures t.disk == t.mem == s.mem && t.phase.Detached? && !t.active
  {
    ReachableInv(s);
    StaysDetached(s, steps, t);
  }

  lemma {:induction false} StaysDetached(s: Session, steps: seq<Step>, t: Session)
    requires Inv(s) && s.phase.Detached? && Leads(s, steps, t)
    ensures t.disk == t.mem == s.mem && t.phase.Detached? && !t.active
    decreases |steps|
  {
    if steps != [] {
      StepKeepsInv(s, steps[0]);
      StaysDetached(Apply(s, steps[0]), steps[1..], t);
    }
  }

  // The seal is never taken back, and once the invocation it met has ended nobody enters
  // again: the history is final, and only the release itself still writes.
  lemma {:induction false} SealIsSticky(s: Session, steps: seq<Step>, t: Session)
    requires s.sealed && Leads(s, steps, t)
    ensures t.sealed && (t.active ==> s.active)
    ensures !s.active && (forall i | 0 <= i < |steps| :: !steps[i].Touch?) ==> t.mem == s.mem
    decreases |steps|
  {
    if steps != [] {
      var s' := Apply(s, steps[0]);
      SealIsSticky(s', steps[1..], t);
      assert forall i | 0 <= i < |steps[1..]| :: steps[1..][i] == steps[i + 1];
    }
  }

  // Nobody who comes while the session is free is kept waiting: whether the session is sealed
  // decides, and nothing else. In the same way a flush writes just when the session is dirty.
  lemma EntryAndFlush(s: Session)
    ensures !s.active ==> (Enabled(s, Enter) <==> !s.sealed) && (Enabled(s, Refused) <==> s.sealed)
    ensures s.active ==> !Enabled(s, Enter) && !Enabled(s, Refused)
    ensures s.flight.NoFlight? ==> (Enabled(s, BeginFlush) <==> s.dirty) && (Enabled(s, CleanFlush) <==> !s.dirty)
    ensures Enabled(s, BeginFlush) ==> Apply(s, BeginFlush).flight.Pending? && !Apply(s, BeginFlush).dirty
    ensures Enabled(s, CleanFlush) ==> Apply(s, CleanFlush) == s
    ensures !s.flight.NoFlight? ==> !Enabled(s, BeginFlush) && !Enabled(s, CleanFlush)
  {}

  // Once the final state has been written into memory, a release comes to its end: a strict
  // write that succeeds detaches the session with that state on disk, one that fails retains it,
  // still dirty; a session found clean is detached without a write.
  lemma ReleaseEnds(s: Session) returns (t: Session, u: Session)
    requires s.phase.Saving? && s.flight.NoFlight?
    ensures s.dirty ==> Leads(s, [StrictFlush, Serialise, WriteOk, Detach], t) && t.phase.Detached? && t.disk == s.mem == t.mem
    ensures s.dirty ==> Leads(s, [StrictFlush, WriteFails], u) && u.phase.Retained? && u.dirty && u.mem == s.mem && u.disk == s.disk
    ensures !s.dirty ==> Leads(s, [StrictFlush, Detach], t) && t.phase.Detached? && t.mem == s.mem && t.disk == s.disk
  {
    var s1 := Apply(s, StrictFlush);
    if s.dirty {
      var s2 := Apply(s1, Serialise);
      var s3 := Apply(s2, WriteOk);
      t := Apply(s3, Detach);
      assert Leads(t, [], t);
      LeadsStep(s3, Detach, [], t);
      LeadsStep(s2, WriteOk, [Detach], t);
      LeadsStep(s1, Serialise, [WriteOk, Detach], t);
      LeadsStep(s, StrictFlush, [Serialise, WriteOk, Detach], t);
      u := Apply(s1, WriteFails);
      assert Leads(u, [], u);
      LeadsStep(s1, WriteFails, [], u);
      LeadsStep(s, StrictFlush, [WriteFails], u);
    } else {
      t := Apply(s1, Detach);
      u := t;
      assert Leads(t, [], t);
      LeadsStep(s1, Detach, [], t);
      LeadsStep(s, StrictFlush, [Detach], t);
    }
  }

  // Steps of others, and of the invocation itself, while it goes on.
  ghost predicate StaysInside(steps: seq<Step>) {
    forall i | 0 <= i < |steps| :: !steps[i].Cancel? && !steps[i].Leave?
  }

  lemma {:induction false} CheckpointIsKept(s: Session, steps: seq<Step>, t: Session)
    requires Inv(s) && s.active && StaysInside(steps) && Leads(s, steps, t)
    ensures t.active && t.checkpoint == s.checkpoint
    decreases |steps|
  {
    if steps != [] {
      StepKeepsInv(s, steps[0]);
      assert StaysInside(steps[1..]) by { assert forall i | 0 <= i < |steps[1..]| :: steps[1..][i] == steps[i + 1]; }
      CheckpointIsKept(Apply(s, steps[0]), steps[1..], t);
    }
  }

  // Cancelling an invocation puts the history back to where it entered, whatever it did and
  // whatever was written in between; the rest keeps its last value. No second invocation
  // can have entered in the meantime.
  lemma CancelRestoresHistory(s: Session, steps: seq<Step>, t: Session)
    requires Reachable(s) && Enabled(s, Enter) && StaysInside(steps) && Leads(Apply(s, Enter), steps, t)
    ensures Enabled(t, Cancel) && !Enabled(t, Enter)
    ensures Apply(t, Cancel).mem == Memory(s.mem.history, t.mem.rest)
  {
    ReachableInv(s);
    StepKeepsInv(s, Enter);
    CheckpointIsKept(Apply(s, Enter), steps, t);
  }

  /* ----- eviction looks at the dirty bit alone ----- */

  // What can still happen to the write under way when nobody refers to the session any more.
  ghost predicate WritesOnly(steps: seq<Step>) {
    forall i | 0 <= i < |steps| :: steps[i].Serialise? || steps[i].WriteOk? || steps[i].WriteFails?
  }

  ghost predicate MayLose(s: Session) {
    exists steps, t :: WritesOnly(steps) && Leads(s, steps, t) && t.flight.NoFlight? && t.disk != t.mem
  }

  lemma OneWrite(s: Session, step: Step)
    requires Enabled(s, step) && (step.WriteOk? || step.WriteFails?) && Apply(s, step).disk != s.mem
    ensures MayLose(s)
  {
    var steps, t := [step], Apply(s, step);
    assert steps[1..] == [] && Leads(t, steps[1..], t);
    assert WritesOnly(steps) && Leads(s, steps, t);
  }

  // Dropping a session can lose its last state exactly when the file does not hold it yet, or
  // the write under way carries another one.
  lemma DroppingLosesIff(s: Session)
    ensures MayLose(s) <==> s.disk != s.mem || (s.flight.Serialised? && s.flight.v != s.mem)
  {
    if s.flight.NoFlight? && s.disk != s.mem {
      assert WritesOnly([]) && Leads(s, [], s);
    } else if !s.flight.NoFlight? && s.disk != s.mem {
      OneWrite(s, WriteFails);
    } else if s.flight.Serialised? && s.flight.v != s.mem {
      OneWrite(s, WriteOk);
    }
    if MayLose(s) {
      var steps, t :| WritesOnly(steps) && Leads(s, steps, t) && t.flight.NoFlight? && t.disk != t.mem;
      if s.disk == s.mem && (s.flight.Serialised? ==> s.flight.v == s.mem) {
        WritesKeepSaved(s, steps, t);
        assert false;
      }
    }
  }

  // For a session that is not dirty, as eviction asks: it can lose exactly when a change has
  // not been marked and is neither in the file nor in the write under way, or when a write is
  // under way and the file is behind.
  lemma EvictionLosesIff(s: Session)
    requires Reachable(s) && !s.dirty
    ensures MayLose(s) <==> s.disk != s.mem || (s.unmarked && s.flight.Serialised? && s.flight.v != s.mem)
    ensures !s.unmarked ==> (MayLose(s) <==> !s.flight.NoFlight? && s.disk != s.mem)
  {
    ReachableInv(s);
    DroppingLosesIff(s);
  }

  lemma {:induction false} WritesKeepSaved(s: Session, steps: seq<Step>, t: Session)
    requires WritesOnly(steps) && Leads(s, steps, t) && s.disk == s.mem
    requires s.flight.Serialised? ==> s.flight.v == s.mem
    ensures t.disk == t.mem
    decreases |steps|
  {
    if steps != [] {
      assert WritesOnly(steps[1..]) by { assert forall i | 0 <= i < |steps[1..]| :: steps[1..][i] == steps[i + 1]; }
      WritesKeepSaved(Apply(s, steps[0]), steps[1..], t);
    }
  }

  // It does happen: an invocation marks and leaves, the timer begins a write, and the
  // session, clean by its dirty bit, is dropped before the write fails.
  lemma EvictionCanLose(s: Session, m: Memory) returns (t: Session)
    requires Init(s) && m != s.mem
    ensures Reachable(t) && !t.dirty && !t.unmarked && !t.active && MayLose(t)
  {
    var steps := [Enter, Mutate(m), Mark, Leave, BeginFlush];
    var s1 := Apply(s, Enter);
    var s2 := Apply(s1, Mutate(m));
    var s3 := Apply(s2, Mark);
    var s4 := Apply(s3, Leave);
    t := Apply(s4, BeginFlush);
    assert Leads(t, [], t);
    LeadsStep(s4, BeginFlush, [], t);
    LeadsStep(s3, Leave, [BeginFlush], t);
    LeadsStep(s2, Mark, [Leave, BeginFlush], t);
    LeadsStep(s1, Mutate(m), [Mark, Leave, BeginFlush], t);
    LeadsStep(s, Enter, [Mutate(m), Mark, Leave, BeginFlush], t);
    EvictionLosesIff(t);
  }

  // And so it does without any write: the invocation leaves before it has marked its change.
  lemma UnmarkedCanLose(s: Session, m: Memory) returns (t: Session)
    requires Init(s) && m != s.mem
    ensures Reachable(t) && !t.dirty && t.flight.NoFlight? && !t.active && MayLose(t)
  {
    var s1 := Apply(s, Enter);
    var s2 := Apply(s1, Mutate(m));
    t := Apply(s2, Leave);
    assert Leads(t, [], t);
    LeadsStep(s2, Leave, [], t);
    LeadsStep(s1, Mutate(m), [Leave], t);
    LeadsStep(s, Enter, [Mutate(m), Leave], t);
    DroppingLosesIff(t);
  }

  lemma LeadsStep(s: Session, step: Step, rest: seq<Step>, t: Session)
    requires Enabled(s, step) && Leads(Apply(s, step), rest, t)
    ensures Leads(s, [step] + rest, t)
  {
    assert ([step] + rest)[1..] == rest;
  }
}
