/**
 The table of reference-counted locks through which detached sessions are invoked and
 deleted, as a machine whose tasks interleave in any order.
 */
module InvocationLocks {
  import opened Sequences

  type SessionId = string
  type Lock = nat

  datatype Kind = Invoke | Delete | DeleteByRef | Ensure

  // Where a task is: it has not begun; holds the ensure lock; has registered as a user and
  // waits for the lock of its session; has that lock; also has a permit of the semaphore;
  // has let go of both but is still registered; has left.
  datatype Pc = New | Ensuring | Waiting | Holding | InBody | Leaving | Done

  datatype Task = Task(kind: Kind, id: SessionId, pc: Pc, lock: Lock)
  {
    predicate Registered() { pc in {Waiting, Holding, InBody, Leaving} }
    predicate HasLock() { pc in {Holding, InBody} }
    predicate HasEnsure() {
      (kind.DeleteByRef? && pc in {Ensuring, Waiting, Holding, Leaving}) || (kind.Ensure? && pc.Ensuring?)
    }
  }

  datatype State = State(
    tasks: seq<Task>,
    locks: map<SessionId, Lock>,      // _invocation_locks
    users: map<SessionId, nat>,       // _invocation_users
    held: set<Lock>,
    free: nat,                        // permits of the semaphore
    ensureHeld: bool,                 // _ensure_lock
    unused: Lock)                    // lock objects from here on have not been made

  datatype Step =
    | TakeEnsure(i: nat) | LeaveEnsure(i: nat) | Register(i: nat) | Acquire(i: nat)
    | TakePermit(i: nat) | Finish(i: nat) | Interrupt(i: nat) | Unregister(i: nat)

  predicate Enabled(s: State, step: Step) {
    step.i < |s.tasks| &&
    var t := s.tasks[step.i];
    match step
    case TakeEnsure(_) => t.pc.New? && (t.kind.DeleteByRef? || t.kind.Ensure?) && !s.ensureHeld
    // the session exists already or has been made; or there is none to delete
    case LeaveEnsure(_) => t.pc.Ensuring?
    case Register(_) => (t.pc.New? && (t.kind.Invoke? || t.kind.Delete?)) || (t.pc.Ensuring? && t.kind.DeleteByRef?)
    case Acquire(_) => t.pc.Waiting? && t.lock !in s.held
    case TakePermit(_) => t.pc.Holding? && t.kind.Invoke? && s.free > 0
    // the body returns or raises
    case Finish(_) => t.pc.InBody? || (t.pc.Holding? && !t.kind.Invoke?)
    // cancelled while waiting for the lock or for a permit
    case Interrupt(_) => t.pc.Waiting? || (t.pc.Holding? && t.kind.Invoke?)
    case Unregister(_) => t.pc.Leaving? && t.id in s.users && s.users[t.id] > 0
  }

  function Moved(s: State, i: nat, pc: Pc): State
    requires i < |s.tasks|
  {
    s.(tasks := s.tasks[i := s.tasks[i].(pc := pc)])
  }

  function Apply(s: State, step: Step): State
    requires Enabled(s, step)
  {
    var t := s.tasks[step.i];
    match step
    case TakeEnsure(i) => Moved(s, i, Ensuring).(ensureHeld := true)
    case LeaveEnsure(i) => Moved(s, i, Done).(ensureHeld := false)
    case Register(i) =>
      var lock := if t.id in s.locks then s.locks[t.id] else s.unused;
      s.(tasks := s.tasks[i := t.(pc := Waiting, lock := lock)],
         locks := s.locks[t.id := lock],
         users := s.users[t.id := (if t.id in s.users then s.users[t.id] else 0) + 1],
         unused := if t.id in s.locks then s.unused else s.unused + 1)
    case Acquire(i) => Moved(s, i, Holding).(held := s.held + {t.lock})
    case TakePermit(i) => Moved(s, i, InBody).(free := s.free - 1)
    case Finish(i) => Moved(s, i, Leaving).(held := s.held - {t.lock}, free := if t.pc.InBody? then s.free + 1 else s.free)
    case Interrupt(i) => Moved(s, i, Leaving).(held := if t.pc.Holding? then s.held - {t.lock} else s.held)
    case Unregister(i) =>
      Moved(s, i, Done).(
        ensureHeld := s.ensureHeld && !t.kind.DeleteByRef?,
        users := if s.users[t.id] > 1 then s.users[t.id := s.users[t.id] - 1] else s.users - {t.id},
        locks := if s.users[t.id] > 1 then s.locks else s.locks - {t.id})
  }

  /* ----- the invariant ----- */

  function UserOf(id: SessionId): Task -> nat {
    (t: Task) => if t.Registered() && t.id == id then 1 else 0
  }

  function HolderOf(l: Lock): Task -> nat {
    (t: Task) => if t.HasLock() && t.lock == l then 1 else 0
  }

  function PermitOf(): Task -> nat {
    (t: Task) => if t.pc.InBody? then 1 else 0
  }

  function EnsureOf(): Task -> nat {
    (t: Task) => if t.HasEnsure() then 1 else 0
  }

  // The table counts the registered tasks of each id, and lists no other id.
  ghost predicate TableOK(s: State) {
    && s.users.Keys == s.locks.Keys
    && (forall id | id in s.users :: s.users[id] > 0)
    && (forall id :: SumBy(UserOf(id), s.tasks) == if id in s.users then s.users[id] else 0)
  }

  // Everyone registered for an id has its lock, and no other id has it.
  ghost predicate LocksOK(s: State) {
    && (forall i | 0 <= i < |s.tasks| && s.tasks[i].Registered() ::
          s.tasks[i].id in s.locks && s.tasks[i].lock == s.locks[s.tasks[i].id])
    && (forall a, b | a in s.locks && b in s.locks && s.locks[a] == s.locks[b] :: a == b)
    && (forall a | a in s.locks :: s.locks[a] < s.unused)
  }

  ghost predicate HoldersOK(s: State) {
    forall l :: SumBy(HolderOf(l), s.tasks) == if l in s.held then 1 else 0
  }

  ghost predicate CountsOK(s: State, permits: nat) {
    && s.free + SumBy(PermitOf(), s.tasks) == permits
    && SumBy(EnsureOf(), s.tasks) == (if s.ensureHeld then 1 else 0)
    && forall i | 0 <= i < |s.tasks| :: KindOK(s.tasks[i])
  }

  predicate KindOK(t: Task) {
    && (t.pc.InBody? ==> t.kind.Invoke?)
    && (t.pc.Ensuring? ==> t.kind.DeleteByRef? || t.kind.Ensure?)
    && (t.kind.Ensure? ==> t.pc in {New, Ensuring, Done})
  }

  ghost predicate Inv(s: State, permits: nat) {
    TableOK(s) && LocksOK(s) && HoldersOK(s) && CountsOK(s, permits)
  }

  ghost predicate Init(s: State, permits: nat) {
    && (forall i | 0 <= i < |s.tasks| :: s.tasks[i].pc.New?)
    && s.locks == map[] && s.users == map[] && s.held == {} && s.free == permits && !s.ensureHeld
  }

  lemma InitInv(s: State, permits: nat)
    requires Init(s, permits)
    ensures Inv(s, permits)
  {
    forall id ensures SumBy(UserOf(id), s.tasks) == 0 { SumByZeroIff(UserOf(id), s.tasks); }
    forall l ensures SumBy(HolderOf(l), s.tasks) == 0 { SumByZeroIff(HolderOf(l), s.tasks); }
    SumByZeroIff(PermitOf(), s.tasks);
    SumByZeroIff(EnsureOf(), s.tasks);
  }

  // One task has changed, and the others not.
  ghost predicate Changes(s: State, s': State, i: nat) {
    i < |s.tasks| == |s'.tasks| && s'.tasks == s.tasks[i := s'.tasks[i]]
  }

  lemma StepChanges(s: State, step: Step)
    requires Enabled(s, step)
    ensures Changes(s, Apply(s, step), step.i)
    ensures Apply(s, step).tasks[step.i].id == s.tasks[step.i].id && Apply(s, step).tasks[step.i].kind == s.tasks[step.i].kind
  {}

  // The way of each kind of task. An invocation comes to its body only with a permit, and a
  // deletion needs none; only an interruption leaves out the rest of the way.
  predicate OnItsWay(kind: Kind, pc: Pc, next: Pc) {
    match pc
    case New => if kind.Invoke? || kind.Delete? then next == Waiting else next == Ensuring
    case Ensuring => next == Done || (kind.DeleteByRef? && next == Waiting)
    case Waiting => next == Holding
    case Holding => next == if kind.Invoke? then InBody else Leaving
    case InBody => next == Leaving
    case Leaving => next == Done
    case Done => false
  }

  lemma StepsAreOnTheWay(s: State, step: Step)
    requires Enabled(s, step)
    ensures var t, t' := s.tasks[step.i], Apply(s, step).tasks[step.i];
      if step.Interrupt? then t'.pc == Leaving && (t.pc == Waiting || (t.kind.Invoke? && t.pc == Holding))
      else OnItsWay(t.kind, t.pc, t'.pc)
    ensures forall j | 0 <= j < |s.tasks| && j != step.i :: Apply(s, step).tasks[j] == s.tasks[j]
  {}

  lemma TableSame(s: State, s': State, i: nat)
    requires TableOK(s) && Changes(s, s', i) && s'.users == s.users && s'.locks.Keys == s.locks.Keys
    requires s'.tasks[i].id == s.tasks[i].id && s'.tasks[i].Registered() == s.tasks[i].Registered()
    ensures TableOK(s')
  {
    forall id ensures SumBy(UserOf(id), s'.tasks) == SumBy(UserOf(id), s.tasks) {
      SumByUpdate(UserOf(id), s.tasks, i, s'.tasks[i]);
    }
  }

  lemma TableMoves(s: State, s': State, i: nat, id: SessionId)
    requires Changes(s, s', i) && s'.tasks[i].id == s.tasks[i].id
    ensures id != s.tasks[i].id ==> SumBy(UserOf(id), s'.tasks) == SumBy(UserOf(id), s.tasks)
    ensures id == s.tasks[i].id ==>
              SumBy(UserOf(id), s'.tasks) + (if s.tasks[i].Registered() then 1 else 0)
              == SumBy(UserOf(id), s.tasks) + (if s'.tasks[i].Registered() then 1 else 0)
  {
    SumByUpdate(UserOf(id), s.tasks, i, s'.tasks[i]);
  }

  lemma TableStep(s: State, step: Step)
    requires TableOK(s) && Enabled(s, step)
    ensures TableOK(Apply(s, step))
  {
    hide SumBy;
    StepChanges(s, step);
    if step.Register? || step.Unregister? {
      var s' := Apply(s, step);
      forall id ensures SumBy(UserOf(id), s'.tasks) == if id in s'.users then s'.users[id] else 0 {
        TableMoves(s, s', step.i, id);
      }
    } else {
      hide TableOK;
      TableSame(s, Apply(s, step), step.i);
    }
  }

  lemma HoldersSame(s: State, s': State, i: nat)
    requires HoldersOK(s) && Changes(s, s', i) && s'.held == s.held
    requires s'.tasks[i].HasLock() == s.tasks[i].HasLock() && (s.tasks[i].HasLock() ==> s'.tasks[i].lock == s.tasks[i].lock)
    ensures HoldersOK(s')
  {
    forall l ensures SumBy(HolderOf(l), s'.tasks) == SumBy(HolderOf(l), s.tasks) {
      SumByUpdate(HolderOf(l), s.tasks, i, s'.tasks[i]);
    }
  }

  // A lock is held while a task has it.
  lemma HeldByHolder(s: State, i: nat)
    requires HoldersOK(s) && i < |s.tasks| && s.tasks[i].HasLock()
    ensures s.tasks[i].lock in s.held
  {
    SumByZeroIff(HolderOf(s.tasks[i].lock), s.tasks);
  }

  lemma HoldersMove(s: State, s': State, i: nat)
    requires HoldersOK(s) && Changes(s, s', i)
    requires s'.tasks[i].lock == s.tasks[i].lock && s'.tasks[i].HasLock() != s.tasks[i].HasLock()
    requires var l := s.tasks[i].lock;
      s'.held == (if s'.tasks[i].HasLock() then s.held + {l} else s.held - {l}) && (s'.tasks[i].HasLock() ==> l !in s.held)
    ensures HoldersOK(s')
  {
    if s.tasks[i].HasLock() { HeldByHolder(s, i); }
    forall l ensures SumBy(HolderOf(l), s'.tasks) == if l in s'.held then 1 else 0 {
      SumByUpdate(HolderOf(l), s.tasks, i, s'.tasks[i]);
    }
  }

  lemma HoldersStep(s: State, step: Step)
    requires HoldersOK(s) && Enabled(s, step)
    ensures HoldersOK(Apply(s, step))
  {
    hide HoldersOK, SumBy;
    StepChanges(s, step);
    if s.tasks[step.i].HasLock() == Apply(s, step).tasks[step.i].HasLock() {
      HoldersSame(s, Apply(s, step), step.i);
    } else {
      HoldersMove(s, Apply(s, step), step.i);
    }
  }

  lemma CountsMove(s: State, s': State, i: nat, permits: nat)
    requires CountsOK(s, permits) && Changes(s, s', i) && KindOK(s'.tasks[i])
    requires s'.free + PermitOf()(s'.tasks[i]) == s.free + PermitOf()(s.tasks[i])
    requires (if s'.ensureHeld then 1 else 0) + EnsureOf()(s.tasks[i]) == (if s.ensureHeld then 1 else 0) + EnsureOf()(s'.tasks[i])
    ensures CountsOK(s', permits)
  {
    SumByUpdate(PermitOf(), s.tasks, i, s'.tasks[i]);
    SumByUpdate(EnsureOf(), s.tasks, i, s'.tasks[i]);
    hide SumBy, KindOK;
  }

  lemma EnsureHeldByHolder(s: State, permits: nat, i: nat)
    requires CountsOK(s, permits) && i < |s.tasks|
    ensures KindOK(s.tasks[i])
    ensures s.tasks[i].HasEnsure() ==> s.ensureHeld
  {
    SumByZeroIff(EnsureOf(), s.tasks);
  }

  lemma CountsStep(s: State, permits: nat, step: Step)
    requires CountsOK(s, permits) && Enabled(s, step)
    ensures CountsOK(Apply(s, step), permits)
  {
    hide CountsOK;
    StepChanges(s, step);
    EnsureHeldByHolder(s, permits, step.i);
    CountsMove(s, Apply(s, step), step.i, permits);
  }

  lemma LocksSame(s: State, s': State, i: nat)
    requires LocksOK(s) && Changes(s, s', i) && s'.locks == s.locks && s'.unused == s.unused
    requires s'.tasks[i].Registered() ==> s.tasks[i].Registered() && s'.tasks[i].lock == s.tasks[i].lock && s'.tasks[i].id == s.tasks[i].id
    ensures LocksOK(s')
  {}

  lemma LocksRegister(s: State, i: nat)
    requires TableOK(s) && LocksOK(s) && Enabled(s, Register(i))
    ensures LocksOK(Apply(s, Register(i)))
  {
    hide SumBy;
  }

  lemma LocksUnregister(s: State, i: nat)
    requires TableOK(s) && LocksOK(s) && Enabled(s, Unregister(i))
    ensures LocksOK(Apply(s, Unregister(i)))
  {
    if s.users[s.tasks[i].id] == 1 {
      LastUserLeaves(s, i);
    }
    hide TableOK, SumBy;
  }

  lemma LocksStep(s: State, step: Step)
    requires TableOK(s) && LocksOK(s) && Enabled(s, step)
    ensures LocksOK(Apply(s, step))
  {
    hide SumBy, TableOK, LocksOK;
    match step
    case Register(i) => LocksRegister(s, i);
    case Unregister(i) => LocksUnregister(s, i);
    case _ =>
      StepChanges(s, step);
      LocksSame(s, Apply(s, step), step.i);
  }

  // With one user left, nobody else is registered for the id.
  lemma LastUserLeaves(s: State, i: nat)
    requires TableOK(s) && i < |s.tasks| && s.tasks[i].Registered()
    requires s.tasks[i].id in s.users && s.users[s.tasks[i].id] == 1
    ensures forall j | 0 <= j < |s.tasks| && j != i && s.tasks[j].Registered() :: s.tasks[j].id != s.tasks[i].id
  {
    var w := UserOf(s.tasks[i].id);
    forall j | 0 <= j < |s.tasks| && j != i && s.tasks[j].Registered() ensures s.tasks[j].id != s.tasks[i].id {
      if j < i { SumByPair(w, s.tasks, j, i); } else { SumByPair(w, s.tasks, i, j); }
    }
  }

  lemma StepKeepsInv(s: State, permits: nat, step: Step)
    requires Inv(s, permits) && Enabled(s, step)
    ensures Inv(Apply(s, step), permits)
  {
    hide TableOK, LocksOK, HoldersOK, CountsOK, Enabled, Apply;
    TableStep(s, step);
    LocksStep(s, step);
    HoldersStep(s, step);
    CountsStep(s, permits, step);
  }

  /* ----- runs ----- */

  ghost predicate Leads(s: State, steps: seq<Step>, t: State)
    decreases |steps|
  {
    if steps == [] then s == t
    else Enabled(s, steps[0]) && Leads(Apply(s, steps[0]), steps[1..], t)
  }

  ghost predicate Reachable(t: State, permits: nat) {
    exists s, steps :: Init(s, permits) && Leads(s, steps, t)
  }

  lemma {:induction false} RunKeepsInv(s: State, permits: nat, steps: seq<Step>, t: State)
    requires Inv(s, permits) && Leads(s, steps, t)
    ensures Inv(t, permits)
    decreases |steps|
  {
    if steps != [] {
      StepKeepsInv(s, permits, steps[0]);
      RunKeepsInv(Apply(s, steps[0]), permits, steps[1..], t);
    }
  }

  lemma ReachableInv(t: State, permits: nat)
    requires Reachable(t, permits)
    ensures Inv(t, permits)
  {
    var s, steps :| Init(s, permits) && Leads(s, steps, t);
    InitInv(s, permits);
    RunKeepsInv(s, permits, steps, t);
  }

  // However the tasks interleave, no two of them are at work on one session, and all that
  // are registered for a session wait for, or have, one and the same lock.
  lemma OneAtATime(s: State, permits: nat, i: nat, j: nat)
    requires Reachable(s, permits) && i < j < |s.tasks| && s.tasks[i].id == s.tasks[j].id
    ensures !(s.tasks[i].HasLock() && s.tasks[j].HasLock())
    ensures s.tasks[i].Registered() && s.tasks[j].Registered() ==> s.tasks[i].lock == s.tasks[j].lock
  {
    ReachableInv(s, permits);
    if s.tasks[i].HasLock() && s.tasks[j].HasLock() {
      assert s.tasks[i].lock == s.tasks[j].lock;
      SumByPair(HolderOf(s.tasks[i].lock), s.tasks, i, j);
    }
  }

  // At most as many bodies of invocations run as there are permits.
  lemma BodiesAreBounded(s: State, permits: nat)
    requires Reachable(s, permits)
    ensures SumBy(PermitOf(), s.tasks) <= permits
    ensures SumBy(PermitOf(), s.tasks) + s.free == permits
  {
    ReachableInv(s, permits);
  }

  // The table counts exactly the tasks between entry and exit; when there are none, both
  // maps are empty, no lock is held and all permits are back.
  lemma TableCountsUsers(s: State, permits: nat, id: SessionId)
    requires Reachable(s, permits)
    ensures id in s.users <==> id in s.locks
    ensures id in s.users <==> exists i :: 0 <= i < |s.tasks| && s.tasks[i].Registered() && s.tasks[i].id == id
    ensures id in s.users ==> s.users[id] == SumBy(UserOf(id), s.tasks)
  {
    ReachableInv(s, permits);
    SumByZeroIff(UserOf(id), s.tasks);
  }

  lemma EmptyWhenIdle(s: State, permits: nat)
    requires Reachable(s, permits) && forall i | 0 <= i < |s.tasks| :: s.tasks[i].pc in {New, Done}
    ensures s.users == map[] && s.locks == map[] && s.held == {} && s.free == permits && !s.ensureHeld
  {
    ReachableInv(s, permits);
    forall id ensures id !in s.users && id !in s.locks { TableCountsUsers(s, permits, id); }
    forall l ensures l !in s.held { SumByZeroIff(HolderOf(l), s.tasks); }
    SumByZeroIff(PermitOf(), s.tasks);
    SumByZeroIff(EnsureOf(), s.tasks);
  }

  /* ----- no deadlock ----- */

  // What nobody has is free.
  lemma UnusedIsFree(s: State, permits: nat)
    requires Inv(s, permits)
    ensures (forall i | 0 <= i < |s.tasks| :: !s.tasks[i].pc.InBody?) ==> s.free == permits
    ensures (forall i | 0 <= i < |s.tasks| :: !s.tasks[i].HasEnsure()) ==> !s.ensureHeld
    ensures (forall i | 0 <= i < |s.tasks| :: !s.tasks[i].HasLock()) ==> s.held == {}
    ensures forall i | 0 <= i < |s.tasks| :: KindOK(s.tasks[i])
  {
    SumByZeroIff(PermitOf(), s.tasks);
    SumByZeroIff(EnsureOf(), s.tasks);
    if forall i | 0 <= i < |s.tasks| :: !s.tasks[i].HasLock() {
      forall l ensures l !in s.held { SumByZeroIff(HolderOf(l), s.tasks); }
    }
  }

  // Somebody has a lock: its body can end, or another's, or else a permit is free for it.
  lemma HolderCanGoOn(s: State, permits: nat, j: nat) returns (step: Step)
    requires Inv(s, permits) && permits > 0 && j < |s.tasks| && s.tasks[j].HasLock()
    ensures Enabled(s, step) && !step.Interrupt?
  {
    UnusedIsFree(s, permits);
    hide Inv, KindOK, SumBy;
    if s.tasks[j].pc.InBody? || !s.tasks[j].kind.Invoke? { return Finish(j); }
    if k :| 0 <= k < |s.tasks| && s.tasks[k].pc.InBody? { return Finish(k); }
    step := TakePermit(j);
  }

  // Nobody has a lock, so that all of them are free.
  lemma UserCanGoOn(s: State, permits: nat, i: nat) returns (step: Step)
    requires Inv(s, permits) && i < |s.tasks| && s.tasks[i].Registered()
    requires forall j | 0 <= j < |s.tasks| :: !s.tasks[j].HasLock()
    ensures Enabled(s, step) && !step.Interrupt?
  {
    if s.tasks[i].pc.Waiting? {
      UnusedIsFree(s, permits);
      hide Inv, KindOK, SumBy;
      step := Acquire(i);
    } else {
      SumByZeroIff(UserOf(s.tasks[i].id), s.tasks);
      hide LocksOK, HoldersOK, CountsOK, SumBy;
      step := Unregister(i);
    }
  }

  lemma RegisteredCanGoOn(s: State, permits: nat, i: nat) returns (step: Step)
    requires Inv(s, permits) && permits > 0 && i < |s.tasks| && s.tasks[i].Registered()
    ensures Enabled(s, step) && !step.Interrupt?
  {
    hide Inv, Enabled;
    if j :| 0 <= j < |s.tasks| && s.tasks[j].HasLock() {
      step := HolderCanGoOn(s, permits, j);
    } else {
      step := UserCanGoOn(s, permits, i);
    }
  }

  // Some task can always go on, although sessions stay locked while their invocations wait
  // for a permit, and a deletion by reference keeps the ensure lock until it is through.
  lemma SomeoneCanGoOn(s: State, permits: nat) returns (step: Step)
    requires Reachable(s, permits) && permits > 0
    requires exists i | 0 <= i < |s.tasks| :: s.tasks[i].pc != Done
    ensures Enabled(s, step) && !step.Interrupt?
  {
    ReachableInv(s, permits);
    UnusedIsFree(s, permits);
    hide Inv, SumBy, Reachable;
    if i :| 0 <= i < |s.tasks| && s.tasks[i].Registered() {
      step := RegisteredCanGoOn(s, permits, i);
    } else if i :| 0 <= i < |s.tasks| && s.tasks[i].pc == Ensuring {
      step := LeaveEnsure(i);
    } else {
      var i :| 0 <= i < |s.tasks| && s.tasks[i].pc != Done;
      step := if s.tasks[i].kind in {Invoke, Delete} then Register(i) else TakeEnsure(i);
    }
  }

  // How many steps a task has before it at most.
  function StepsLeft(): Task -> nat {
    (t: Task) =>
      match t.pc
      case New => 6
      case Ensuring => 5
      case Waiting => 4
      case Holding => 3
      case InBody => 2
      case Leaving => 1
      case Done => 0
  }

  // Every run is finite; together with the above, every run that goes as far as it can ends
  // with all tasks done and the table empty.
  lemma {:induction false} RunsAreFinite(s: State, steps: seq<Step>, t: State)
    requires Leads(s, steps, t)
    ensures |steps| + SumBy(StepsLeft(), t.tasks) <= SumBy(StepsLeft(), s.tasks)
    decreases |steps|
  {
    if steps != [] {
      var s' := Apply(s, steps[0]);
      StepChanges(s, steps[0]);
      SumByUpdate(StepsLeft(), s.tasks, steps[0].i, s'.tasks[steps[0].i]);
      RunsAreFinite(s', steps[1..], t);
    }
  }

  lemma StuckMeansDone(s: State, permits: nat)
    requires Reachable(s, permits) && permits > 0
    requires forall step | Enabled(s, step) :: step.Interrupt?
    ensures forall i | 0 <= i < |s.tasks| :: s.tasks[i].pc == Done
    ensures s.users == map[] && s.locks == map[] && s.held == {} && s.free == permits
  {
    if exists i | 0 <= i < |s.tasks| :: s.tasks[i].pc != Done {
      var step := SomeoneCanGoOn(s, permits);
      assert false;
    }
    EmptyWhenIdle(s, permits);
  }
}
