/** The Agent's refcounted lock map: one mutex per execution, created by the first
    command that needs it and dropped by the last (internal/app/agent_runner.go). */
module ExecutionLocks {
  import opened Common

  type ExecutionID = string

  /** A lock object; its identity is a number never used again. */
  type LockID = nat

  /** One call of lockExecution. */
  type Call = nat

  datatype LockObject = LockObject(references: int, owner: Option<Call>)

  datatype Table = Table(locks: map<ExecutionID, LockID>, objects: map<LockID, LockObject>, next: LockID)

  // ------------------------------------------------------------------ sections

  function EntryFor(t: Table, e: ExecutionID): LockID {
    GetOr(t.locks, e, t.next)
  }

  /** Under locksMu: find or create the entry and count the caller in. */
  function Enter(t: Table, e: ExecutionID): Table {
    var l := EntryFor(t, e);
    var entry := if e in t.locks then GetOr(t.objects, l, LockObject(0, None)) else LockObject(0, None);
    Table(
      t.locks[e := l],
      t.objects[l := entry.(references := entry.references + 1)],
      if e in t.locks then t.next else t.next + 1)
  }

  function Acquire(t: Table, l: LockID, c: Call): Table {
    if l in t.objects then t.(objects := t.objects[l := t.objects[l].(owner := Some(c))]) else t
  }

  function Unlock(t: Table, l: LockID): Table {
    if l in t.objects then t.(objects := t.objects[l := t.objects[l].(owner := None)]) else t
  }

  /** Under locksMu: count the caller out; the last one deletes the map entry. */
  function Leave(t: Table, e: ExecutionID, l: LockID): Table {
    if l !in t.objects then t
    else
      var entry := t.objects[l].(references := t.objects[l].references - 1);
      t.(objects := t.objects[l := entry], locks := if entry.references == 0 then t.locks - {e} else t.locks)
  }

  class LockTable {
    var locks: map<ExecutionID, LockID>
    var objects: map<LockID, LockObject>
    var next: LockID

    ghost function View(): Table
      reads this
    {
      Table(locks, objects, next)
    }

    constructor ()
      ensures View() == Table(map[], map[], 0)
    {
      locks, objects, next := map[], map[], 0;
    }

    method EnterLock(e: ExecutionID) returns (lock: LockID)
      requires e in locks ==> locks[e] in objects
      modifies this
      ensures View() == Enter(old(View()), e) && lock == EntryFor(old(View()), e)
    {
      if e in locks {
        lock := locks[e];
      } else {
        lock := next;
        next := next + 1;
        objects := objects[lock := LockObject(0, None)];
        locks := locks[e := lock];
      }
      objects := objects[lock := objects[lock].(references := objects[lock].references + 1)];
    }

    /** The wait for the mutex ended: it is free and becomes the caller's. */
    method AcquireMutex(lock: LockID, c: Call)
      requires lock in objects && objects[lock].owner.None?
      modifies this`objects
      ensures View() == Acquire(old(View()), lock, c)
    {
      objects := objects[lock := objects[lock].(owner := Some(c))];
    }

    method UnlockMutex(lock: LockID)
      requires lock in objects && objects[lock].owner.Some?
      modifies this`objects
      ensures View() == Unlock(old(View()), lock)
    {
      objects := objects[lock := objects[lock].(owner := None)];
    }

    method LeaveLock(e: ExecutionID, lock: LockID)
      requires lock in objects
      modifies this
      ensures View() == Leave(old(View()), e, lock)
    {
      objects := objects[lock := objects[lock].(references := objects[lock].references - 1)];
      if objects[lock].references == 0 {
        locks := locks - {e};
      }
    }
  }

  // ------------------------------------------------------------------- machine

  datatype Phase = Waiting | Holding | Unlocked | Released

  datatype CallState = CallState(execution: ExecutionID, lock: LockID, phase: Phase)

  datatype Machine = Machine(table: Table, calls: map<Call, CallState>)

  datatype Event =
    | EnterEvent(c: Call, e: ExecutionID)
    | AcquireEvent(c: Call)
    | UnlockEvent(c: Call)
    | LeaveEvent(c: Call)

  predicate At(m: Machine, c: Call, phase: Phase) {
    c in m.calls && m.calls[c].phase == phase
  }

  predicate Enabled(m: Machine, e: Event) {
    match e
    case EnterEvent(c, x) => c !in m.calls
    case AcquireEvent(c) =>
      At(m, c, Waiting) && m.calls[c].lock in m.table.objects && m.table.objects[m.calls[c].lock].owner.None?
    case UnlockEvent(c) => At(m, c, Holding)
    case LeaveEvent(c) => At(m, c, Unlocked)
  }

  function SetPhase(m: Machine, c: Call, phase: Phase): map<Call, CallState>
    requires c in m.calls
  {
    m.calls[c := m.calls[c].(phase := phase)]
  }

  function Step(m: Machine, e: Event): Machine
    requires Enabled(m, e)
  {
    match e
    case EnterEvent(c, x) =>
      Machine(Enter(m.table, x), m.calls[c := CallState(x, EntryFor(m.table, x), Waiting)])
    case AcquireEvent(c) => Machine(Acquire(m.table, m.calls[c].lock, c), SetPhase(m, c, Holding))
    case UnlockEvent(c) => Machine(Unlock(m.table, m.calls[c].lock), SetPhase(m, c, Unlocked))
    case LeaveEvent(c) =>
      Machine(Leave(m.table, m.calls[c].execution, m.calls[c].lock), SetPhase(m, c, Released))
  }

  ghost predicate IsRun(states: seq<Machine>, events: seq<Event>) {
    && |states| == |events| + 1
    && states[0] == Machine(Table(map[], map[], 0), map[])
    && forall i :: 0 <= i < |events| ==> Enabled(states[i], events[i]) && states[i + 1] == Step(states[i], events[i])
  }

  // ----------------------------------------------------------------- invariant

  /** A call refers to its lock object from entering until it has counted itself out. */
  predicate Refers(m: Machine, c: Call, l: LockID) {
    c in m.calls && !m.calls[c].phase.Released? && m.calls[c].lock == l
  }

  function Referrers(m: Machine, l: LockID): set<Call> {
    set c | c in m.calls && Refers(m, c, l)
  }

  ghost predicate EntriesSound(m: Machine) {
    && (forall e :: e in m.table.locks ==> m.table.locks[e] in m.table.objects)
    && (forall e, f :: e in m.table.locks && f in m.table.locks && m.table.locks[e] == m.table.locks[f] ==> e == f)
    && (forall l :: l in m.table.objects ==> l < m.table.next)
  }

  ghost predicate CallsSound(m: Machine) {
    forall c :: c in m.calls && !m.calls[c].phase.Released? ==>
      && m.calls[c].execution in m.table.locks
      && m.table.locks[m.calls[c].execution] == m.calls[c].lock
  }

  ghost predicate OwnersSound(m: Machine) {
    forall l, c :: l in m.table.objects ==>
      (m.table.objects[l].owner == Some(c) <==> At(m, c, Holding) && m.calls[c].lock == l)
  }

  ghost predicate CountsSound(m: Machine) {
    && (forall l :: l in m.table.objects ==> m.table.objects[l].references == |Referrers(m, l)|)
    && (forall e :: e in m.table.locks ==> Referrers(m, m.table.locks[e]) != {})
  }

  ghost predicate Inv(m: Machine) {
    EntriesSound(m) && CallsSound(m) && OwnersSound(m) && CountsSound(m)
  }

  lemma EnterKeepsOwnership(m: Machine, c: Call, x: ExecutionID)
    requires EntriesSound(m) && CallsSound(m) && OwnersSound(m) && Enabled(m, EnterEvent(c, x))
    ensures var m' := Step(m, EnterEvent(c, x)); EntriesSound(m') && CallsSound(m') && OwnersSound(m')
  {
  }

  lemma EnterKeepsCounts(m: Machine, c: Call, x: ExecutionID)
    requires Inv(m) && Enabled(m, EnterEvent(c, x))
    ensures CountsSound(Step(m, EnterEvent(c, x)))
  {
    var m' := Step(m, EnterEvent(c, x));
    var entry := EntryFor(m.table, x);
    forall l
      ensures Referrers(m', l) == if l == entry then Referrers(m, l) + {c} else Referrers(m, l)
    {
    }
    if x !in m.table.locks {
      assert Referrers(m, entry) == {};
    }
    forall e | e in m'.table.locks
      ensures Referrers(m', m'.table.locks[e]) != {}
    {
      if e == x {
        assert c in Referrers(m', entry);
      } else {
        assert Referrers(m, m.table.locks[e]) != {};
      }
    }
  }

  lemma MutexKeepsOwnership(m: Machine, e: Event)
    requires EntriesSound(m) && CallsSound(m) && OwnersSound(m) && Enabled(m, e) && (e.AcquireEvent? || e.UnlockEvent?)
    ensures EntriesSound(Step(m, e)) && CallsSound(Step(m, e)) && OwnersSound(Step(m, e))
  {
  }

  lemma MutexKeepsCounts(m: Machine, e: Event)
    requires Inv(m) && Enabled(m, e) && (e.AcquireEvent? || e.UnlockEvent?)
    ensures CountsSound(Step(m, e))
  {
    var m' := Step(m, e);
    forall l
      ensures Referrers(m', l) == Referrers(m, l)
    {
    }
    forall x | x in m'.table.locks
      ensures Referrers(m', m'.table.locks[x]) != {}
    {
      assert Referrers(m, m.table.locks[x]) != {};
    }
  }

  /** When the last call of an execution leaves, no other call refers to its object. */
  lemma LeaveKeepsCounts(m: Machine, c: Call)
    requires Inv(m) && Enabled(m, LeaveEvent(c))
    ensures CountsSound(Step(m, LeaveEvent(c)))
    ensures var m', l := Step(m, LeaveEvent(c)), m.calls[c].lock;
      m'.table.objects[l].references == 0 ==> Referrers(m', l) == {}
  {
    var m' := Step(m, LeaveEvent(c));
    var mine := m.calls[c].lock;
    forall l
      ensures Referrers(m', l) == if l == mine then Referrers(m, l) - {c} else Referrers(m, l)
    {
    }
    assert c in Referrers(m, mine);
    forall e | e in m'.table.locks
      ensures Referrers(m', m'.table.locks[e]) != {}
    {
      assert Referrers(m, m.table.locks[e]) != {};
    }
  }

  lemma LeaveKeepsOwnership(m: Machine, c: Call)
    requires EntriesSound(m) && CallsSound(m) && OwnersSound(m) && Enabled(m, LeaveEvent(c))
    ensures var m' := Step(m, LeaveEvent(c)); EntriesSound(m') && OwnersSound(m')
  {
  }

  lemma LeaveKeepsCalls(m: Machine, c: Call)
    requires Inv(m) && Enabled(m, LeaveEvent(c))
    ensures CallsSound(Step(m, LeaveEvent(c)))
  {
    hide CountsSound, OwnersSound;
    var m' := Step(m, LeaveEvent(c));
    LeaveKeepsCounts(m, c);
    forall d | d in m'.calls && !m'.calls[d].phase.Released?
      ensures m'.calls[d].execution in m'.table.locks
      ensures m'.table.locks[m'.calls[d].execution] == m'.calls[d].lock
    {
      assert m'.calls[d] == m.calls[d];
      if m'.calls[d].execution == m.calls[c].execution {
        assert d in Referrers(m', m.calls[c].lock);
      }
    }
  }

  lemma StepKeepsInv(m: Machine, e: Event)
    requires Inv(m) && Enabled(m, e)
    ensures Inv(Step(m, e))
  {
    hide Step, Enabled, EntriesSound, CallsSound, OwnersSound, CountsSound;
    match e
    case EnterEvent(c, x) => EnterKeepsOwnership(m, c, x); EnterKeepsCounts(m, c, x);
    case AcquireEvent(c) => MutexKeepsOwnership(m, e); MutexKeepsCounts(m, e);
    case UnlockEvent(c) => MutexKeepsOwnership(m, e); MutexKeepsCounts(m, e);
    case LeaveEvent(c) => LeaveKeepsOwnership(m, c); LeaveKeepsCalls(m, c); LeaveKeepsCounts(m, c);
  }

  lemma {:induction false} RunKeepsInv(states: seq<Machine>, events: seq<Event>, i: nat)
    requires IsRun(states, events) && i < |states|
    ensures Inv(states[i])
  {
    if i > 0 {
      hide Step, Enabled, Inv;
      RunKeepsInv(states, events, i - 1);
      StepKeepsInv(states[i - 1], events[i - 1]);
    }
  }

  // ------------------------------------------------------------------ theorems

  /** At most one call holds the lock of an execution, whichever objects came and went. */
  lemma MutualExclusion(states: seq<Machine>, events: seq<Event>, i: nat, c: Call, d: Call)
    requires IsRun(states, events) && i < |states|
    requires At(states[i], c, Holding) && At(states[i], d, Holding)
    requires states[i].calls[c].execution == states[i].calls[d].execution
    ensures c == d
  {
    RunKeepsInv(states, events, i);
    var m := states[i];
    var l := m.calls[c].lock;
    assert l in m.table.objects && m.table.objects[l].owner == Some(c);
    assert m.table.objects[l].owner == Some(d);
  }

  /** Every call that waits or holds refers to the object stored under its execution. */
  lemma WaitersShareTheMapEntry(states: seq<Machine>, events: seq<Event>, i: nat, c: Call)
    requires IsRun(states, events) && i < |states|
    requires c in states[i].calls && !states[i].calls[c].phase.Released?
    ensures Lookup(states[i].table.locks, states[i].calls[c].execution) == Some(states[i].calls[c].lock)
  {
    RunKeepsInv(states, events, i);
  }

  /** An execution has an entry exactly while some call holds it, waits for it or is
      about to count itself out, and the entry's count is the number of those calls. */
  lemma EntryExactlyWhileUsed(states: seq<Machine>, events: seq<Event>, i: nat, e: ExecutionID)
    requires IsRun(states, events) && i < |states|
    ensures e in states[i].table.locks <==>
      exists c :: c in states[i].calls && !states[i].calls[c].phase.Released? && states[i].calls[c].execution == e
    ensures e in states[i].table.locks ==>
      var users := set c | c in states[i].calls && !states[i].calls[c].phase.Released? && states[i].calls[c].execution == e;
      var l := states[i].table.locks[e];
      l in states[i].table.objects && states[i].table.objects[l].references == |users|
  {
    RunKeepsInv(states, events, i);
    var m := states[i];
    if e in m.table.locks {
      var l := m.table.locks[e];
      var users := set c | c in m.calls && !m.calls[c].phase.Released? && m.calls[c].execution == e;
      assert users == Referrers(m, l);
      var c :| c in Referrers(m, l);
      assert m.calls[c].execution == e;
    }
  }

  /** A waiter is never stuck on an object nobody holds or can free: its mutex is free,
      or held by another call on the same execution. */
  lemma WaiterWaitsForHolder(states: seq<Machine>, events: seq<Event>, i: nat, c: Call)
    requires IsRun(states, events) && i < |states| && At(states[i], c, Waiting)
    ensures
      || Enabled(states[i], AcquireEvent(c))
      || exists d :: At(states[i], d, Holding) && d != c && states[i].calls[d].execution == states[i].calls[c].execution
  {
    RunKeepsInv(states, events, i);
    var m := states[i];
    var l := m.calls[c].lock;
    if m.table.objects[l].owner.Some? {
      var d := m.table.objects[l].owner.value;
      assert At(m, d, Holding) && m.calls[d].lock == l;
      assert m.table.locks[m.calls[d].execution] == l == m.table.locks[m.calls[c].execution];
    }
  }

  /** When the holder unlocks, whoever waits for the execution can go on at once. */
  lemma UnlockingWakesWaiter(states: seq<Machine>, events: seq<Event>, i: nat, c: Call, d: Call)
    requires IsRun(states, events) && i < |states| && At(states[i], c, Waiting) && At(states[i], d, Holding)
    requires states[i].calls[c].execution == states[i].calls[d].execution
    ensures !Enabled(states[i], AcquireEvent(c))
    ensures Enabled(Step(states[i], UnlockEvent(d)), AcquireEvent(c))
    ensures At(Step(Step(states[i], UnlockEvent(d)), AcquireEvent(c)), c, Holding)
  {
    RunKeepsInv(states, events, i);
    WaitersShareTheMapEntry(states, events, i, c);
    WaitersShareTheMapEntry(states, events, i, d);
    var l := states[i].calls[c].lock;
    assert states[i].calls[d].lock == l && l in states[i].table.objects && states[i].table.objects[l].owner == Some(d);
    hide Inv, IsRun;
  }

  // -------------------------------------------------------- accepted commands

  datatype AcceptedState = Open | Executing | Closed

  /** `cleaning` counts callers between closing the command and running cleanup. */
  datatype Accepted = Accepted(state: AcceptedState, cleaning: nat, cleaned: bool, releases: nat)

  datatype CommandEvent = BeginExecute | FinishExecute | Discard | Cleanup

  predicate CommandEnabled(a: Accepted, e: CommandEvent) {
    match e
    case BeginExecute => true
    case Discard => true
    case FinishExecute => a.state.Executing?
    case Cleanup => a.cleaning > 0
  }

  function CommandStep(a: Accepted, e: CommandEvent): Accepted
    requires CommandEnabled(a, e)
  {
    match e
    case BeginExecute => if a.state.Open? then a.(state := Executing) else a
    case FinishExecute => a.(state := Closed, cleaning := a.cleaning + 1)
    case Discard => if a.state.Open? then a.(state := Closed, cleaning := a.cleaning + 1) else a
    case Cleanup =>
      Accepted(a.state, a.cleaning - 1, true, if a.cleaned then a.releases else a.releases + 1)
  }

  const ACCEPTED := Accepted(Open, 0, false, 0)

  ghost predicate IsCommandRun(states: seq<Accepted>, events: seq<CommandEvent>) {
    && |states| == |events| + 1
    && states[0] == ACCEPTED
    && forall i :: 0 <= i < |events| ==>
      CommandEnabled(states[i], events[i]) && states[i + 1] == CommandStep(states[i], events[i])
  }

  /** The command object. A method that reports true leaves its caller to run Cleanup. */
  class AcceptedCommand {
    var state: AcceptedState
    var cleaned: bool
    var releases: nat
    ghost var cleaning: nat

    ghost function View(): Accepted
      reads this
    {
      Accepted(state, cleaning, cleaned, releases)
    }

    constructor ()
      ensures View() == ACCEPTED
    {
      state, cleaned, releases, cleaning := Open, false, 0, 0;
    }

    method TryExecute() returns (began: bool)
      modifies this
      ensures View() == CommandStep(old(View()), BeginExecute) && began == (old(state) == Open)
    {
      if state != Open {
        return false;
      }
      state := Executing;
      began := true;
    }

    method EndExecute()
      requires state == Executing
      modifies this
      ensures View() == CommandStep(old(View()), FinishExecute)
    {
      state := Closed;
      cleaning := cleaning + 1;
    }

    method TryDiscard() returns (closed: bool)
      modifies this
      ensures View() == CommandStep(old(View()), Discard) && closed == (old(state) == Open)
    {
      if state != Open {
        return false;
      }
      state := Closed;
      cleaning := cleaning + 1;
      closed := true;
    }

    method CleanupOnce()
      requires cleaning > 0
      modifies this
      ensures View() == CommandStep(old(View()), Cleanup)
    {
      if !cleaned {
        cleaned := true;
        releases := releases + 1;
      }
      cleaning := cleaning - 1;
    }
  }

  /** Whatever the order of Execute and Discard calls, a closed command has been
      released once, or exactly one caller is about to release it; an open or executing
      one has not been released. */
  lemma {:induction false} ReleasedExactlyOnce(states: seq<Accepted>, events: seq<CommandEvent>, i: nat)
    requires IsCommandRun(states, events) && i < |states|
    ensures states[i].releases + states[i].cleaning == if states[i].state.Closed? then 1 else 0
    ensures states[i].cleaned <==> states[i].releases == 1
  {
    if i > 0 {
      ReleasedExactlyOnce(states, events, i - 1);
      assert CommandEnabled(states[i - 1], events[i - 1]) && states[i] == CommandStep(states[i - 1], events[i - 1]);
    }
  }

  /** The first call decides for good: after a Discard nothing is ever executed, after an
      Execute the command is executing until that ends. */
  lemma {:induction false} FirstCallDecides(states: seq<Accepted>, events: seq<CommandEvent>, j: nat)
    requires IsCommandRun(states, events) && 0 < j < |states|
    ensures events[0].Discard? || events[0].BeginExecute?
    ensures events[0].Discard? ==> states[j].state.Closed?
    ensures events[0].BeginExecute? ==>
      states[j].state == if exists k :: 0 < k < j && events[k].FinishExecute? then Closed else Executing
  {
    assert CommandEnabled(states[j - 1], events[j - 1]) && states[j] == CommandStep(states[j - 1], events[j - 1]);
    if 1 < j { FirstCallDecides(states, events, j - 1); }
  }
}
