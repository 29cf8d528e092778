/** The race between an execution's completion monitor, its Cancel command and the
    acknowledgement of its terminal update (internal/app/agent_runner.go).

    Whoever publishes or acknowledges a terminal update of an execution holds that
    execution's lock; `monitors`, `terminalAcks` and `monitorFailed` are touched under
    lifetimeMu. Assumed of the outbox: a refused acknowledgement deletes nothing, one
    that returns nil has deleted the row, and an ambiguous one may have deleted it
    although it returned an error (internal/store/agent_outbox.go). */
module CompletionMonitor {
  import opened Common

  type ExecutionID = string
  type MessageID = string

  // ------------------------------------------------------------------- class

  /** One execution's share of the runtime. */
  datatype Marks = Marks(monitored: bool, acknowledged: bool)

  class MonitorTable {
    var bound: bool
    var monitors: set<ExecutionID>
    var terminalAcks: set<ExecutionID>
    var monitorFailed: bool

    ghost predicate Valid()
      reads this
    {
      terminalAcks <= monitors
    }

    ghost function MarksOf(e: ExecutionID): Marks
      reads this
    {
      Marks(e in monitors, e in terminalAcks)
    }

    constructor ()
      ensures Valid() && !bound && !monitorFailed && monitors == {}
    {
      bound, monitors, terminalAcks, monitorFailed := false, {}, {}, false;
    }

    /** Start binds the table to the process lifetime, once. */
    method Bind() returns (ok: bool)
      requires Valid()
      modifies this`bound
      ensures Valid() && bound && ok == !old(bound)
    {
      ok := !bound;
      bound := true;
    }

    /** True when a monitor goroutine has to be started. */
    method Register(e: ExecutionID) returns (started: bool)
      requires Valid()
      modifies this`monitors
      ensures Valid()
      ensures started == (bound && e !in old(monitors))
      ensures monitors == if started then old(monitors) + {e} else old(monitors)
    {
      if !bound || e in monitors {
        return false;
      }
      monitors := monitors + {e};
      started := true;
    }

    method MarkAcknowledged(e: ExecutionID)
      requires Valid()
      modifies this`terminalAcks
      ensures Valid()
      ensures terminalAcks == if e in monitors then old(terminalAcks) + {e} else old(terminalAcks)
    {
      if e in monitors {
        terminalAcks := terminalAcks + {e};
      }
    }

    method ConsumeAcknowledged(e: ExecutionID) returns (acknowledged: bool)
      requires Valid()
      modifies this`terminalAcks
      ensures Valid()
      ensures acknowledged == (e in old(terminalAcks)) && terminalAcks == old(terminalAcks) - {e}
    {
      acknowledged := e in terminalAcks;
      if acknowledged {
        terminalAcks := terminalAcks - {e};
      }
    }

    method Unregister(e: ExecutionID)
      requires Valid()
      modifies this
      ensures Valid()
      ensures MarksOf(e) == Marks(false, false)
      ensures forall f :: f != e ==> MarksOf(f) == old(MarksOf(f))
      ensures bound == old(bound) && monitorFailed == old(monitorFailed)
    {
      monitors := monitors - {e};
      terminalAcks := terminalAcks - {e};
    }

    method Fail()
      requires Valid()
      modifies this`monitorFailed
      ensures Valid() && monitorFailed
    {
      monitorFailed := true;
    }
  }

  // ------------------------------------------------------------------ machine

  datatype Holder = MonitorHolds | AckerHolds | CommandHolds

  /** Where the one registered monitor of the execution stands. */
  datatype MonitorStage =
    | Idle       // not registered
    | Waiting    // in manager.Wait
    | Wanting    // waiting for the execution lock
    | Checking   // locked, before reading terminalAcks
    | Looking    // locked, before reading the outbox
    | Deciding   // locked, about to publish the terminal update
    | Releasing  // locked, about to unlock
    | Finishing  // unlocked, about to unregister

  datatype AckStage = Found | Locked | Marking | Leaving

  datatype Acker = Acker(id: MessageID, stage: AckStage)

  datatype Reply = Deleted | Refused | DeletedButFailed

  /** `pending` are the execution's terminal rows. The last two fields are history
      since the current monitor was registered: some terminal update was acknowledged,
      and one such acknowledgement deleted its row but returned an error. */
  datatype Machine = Machine(
    marks: Marks,
    degraded: bool,
    pending: set<MessageID>,
    lock: Option<Holder>,
    monitor: MonitorStage,
    acker: Option<Acker>,
    acknowledgedSince: bool,
    lostReplySince: bool)

  datatype Event =
    | RegisterMonitor
    | WaitReturns
    | Shutdown
    | MonitorLocks
    | MonitorAborts
    | CheckAcknowledged
    | LookForPending(ok: bool)
    | Publish(id: MessageID, terminal: bool, ok: bool)
    | MonitorUnlocks
    | MonitorFinishes
    | AckFinds(id: MessageID)
    | AckLocks
    | AckDeletes(reply: Reply)
    | AckMarks
    | AckUnlocks
    | CommandLocks
    | CommandPublishes(id: MessageID)
    | CommandUnlocks
    | RecoveryPublishes(id: MessageID)
    | RuntimeFails

  predicate AckAt(m: Machine, stage: AckStage) {
    m.acker.Some? && m.acker.value.stage == stage
  }

  predicate Enabled(m: Machine, e: Event) {
    match e
    case RegisterMonitor => true
    case RuntimeFails => true
    case WaitReturns => m.monitor.Waiting?
    case Shutdown => m.monitor.Waiting?
    case MonitorLocks => m.monitor.Wanting? && m.lock.None?
    case MonitorAborts => m.monitor.Checking?
    case CheckAcknowledged => m.monitor.Checking?
    case LookForPending(ok) => m.monitor.Looking?
    case Publish(id, terminal, ok) => m.monitor.Deciding?
    case MonitorUnlocks => m.monitor.Releasing?
    case MonitorFinishes => m.monitor.Finishing?
    case AckFinds(id) => m.acker.None? && id in m.pending
    case AckLocks => AckAt(m, Found) && m.lock.None?
    case AckDeletes(reply) => AckAt(m, Locked)
    case AckMarks => AckAt(m, Marking)
    case AckUnlocks => AckAt(m, Leaving)
    case CommandLocks => m.lock.None?
    case CommandPublishes(id) => m.lock == Some(CommandHolds)
    case CommandUnlocks => m.lock == Some(CommandHolds)
    case RecoveryPublishes(id) => m.monitor.Idle?
  }

  function AckTo(m: Machine, stage: AckStage): Option<Acker>
    requires m.acker.Some?
  {
    Some(m.acker.value.(stage := stage))
  }

  function Step(m: Machine, e: Event): Machine
    requires Enabled(m, e)
  {
    match e
    case RegisterMonitor =>
      if m.marks.monitored then m
      else m.(marks := m.marks.(monitored := true), monitor := Waiting,
              acknowledgedSince := false, lostReplySince := false)
    case RuntimeFails => m.(degraded := true)
    case WaitReturns => m.(monitor := Wanting)
    case Shutdown => m.(monitor := Finishing)
    case MonitorLocks => m.(monitor := Checking, lock := Some(MonitorHolds))
    case MonitorAborts => m.(monitor := Releasing)
    case CheckAcknowledged =>
      m.(marks := m.marks.(acknowledged := false),
         monitor := if m.marks.acknowledged then Releasing else Looking)
    case LookForPending(ok) =>
      if !ok then m.(degraded := true, monitor := Deciding)
      else m.(monitor := if m.pending != {} then Releasing else Deciding)
    case Publish(id, terminal, ok) =>
      m.(pending := if ok && terminal then m.pending + {id} else m.pending,
         degraded := m.degraded || !ok,
         monitor := Releasing)
    case MonitorUnlocks => m.(monitor := Finishing, lock := None)
    case MonitorFinishes => m.(monitor := Idle, marks := Marks(false, false))
    case AckFinds(id) => m.(acker := Some(Acker(id, Found)))
    case AckLocks => m.(acker := AckTo(m, Locked), lock := Some(AckerHolds))
    case AckDeletes(reply) =>
      if m.acker.value.id !in m.pending || reply.Refused? then m.(acker := AckTo(m, Leaving))
      else
        m.(pending := m.pending - {m.acker.value.id},
           acker := AckTo(m, if reply.Deleted? then Marking else Leaving),
           acknowledgedSince := true,
           lostReplySince := m.lostReplySince || reply.DeletedButFailed?)
    case AckMarks =>
      m.(marks := m.marks.(acknowledged := m.marks.acknowledged || m.marks.monitored), acker := AckTo(m, Leaving))
    case AckUnlocks => m.(acker := None, lock := None)
    case CommandLocks => m.(lock := Some(CommandHolds))
    case CommandPublishes(id) => m.(pending := m.pending + {id})
    case CommandUnlocks => m.(lock := None)
    case RecoveryPublishes(id) => m.(pending := m.pending + {id})
  }

  predicate Initial(m: Machine) {
    m == Machine(Marks(false, false), false, m.pending, None, Idle, None, false, false)
  }

  ghost predicate IsRun(states: seq<Machine>, events: seq<Event>) {
    && |states| == |events| + 1
    && Initial(states[0])
    && forall i :: 0 <= i < |events| ==> Enabled(states[i], events[i]) && states[i + 1] == Step(states[i], events[i])
  }

  predicate InsideLock(stage: MonitorStage) {
    stage.Checking? || stage.Looking? || stage.Deciding? || stage.Releasing?
  }

  predicate Inv(m: Machine) {
    && (m.marks.monitored <==> !m.monitor.Idle?)
    && (m.marks.acknowledged ==> m.marks.monitored)
    && (m.lock == Some(MonitorHolds) <==> InsideLock(m.monitor))
    && (m.lock == Some(AckerHolds) <==> m.acker.Some? && !m.acker.value.stage.Found?)
    && (m.monitor.Deciding? ==> m.degraded || m.pending == {})
    && (m.monitor.Looking? || m.monitor.Deciding? ==> !m.marks.acknowledged)
    && (m.lostReplySince ==> m.acknowledgedSince)
    && (m.marks.monitored && m.acknowledgedSince ==>
          || m.marks.acknowledged || m.lostReplySince || AckAt(m, Marking)
          || m.monitor.Releasing? || m.monitor.Finishing?)
  }

  lemma StepKeepsInv(m: Machine, e: Event)
    requires Inv(m) && Enabled(m, e)
    ensures Inv(Step(m, e))
  {
  }

  lemma {:induction false} RunKeepsInv(states: seq<Machine>, events: seq<Event>, i: nat)
    requires IsRun(states, events) && i < |states|
    ensures Inv(states[i])
  {
    if i > 0 {
      hide Step, Inv;
      RunKeepsInv(states, events, i - 1);
      StepKeepsInv(states[i - 1], events[i - 1]);
    }
  }

  // ------------------------------------------------------- history of the runs

  /** Event r registered the monitor that is still registered in state i. */
  ghost predicate RegisteredAt(states: seq<Machine>, events: seq<Event>, r: nat, i: nat)
    requires |states| == |events| + 1 && i < |states|
  {
    && r < i
    && events[r].RegisterMonitor? && !states[r].marks.monitored
    && forall x :: r < x < i ==> !events[x].MonitorFinishes?
  }

  /** Event x deleted a terminal row of this execution. */
  predicate AcknowledgesTerminal(m: Machine, e: Event) {
    && e.AckDeletes? && m.acker.Some?
    && m.acker.value.id in m.pending && !e.reply.Refused?
  }

  /** Some terminal update was acknowledged between events r and i; with `lost`, by an
      acknowledgement that returned an error. */
  ghost predicate AcknowledgedBetween(states: seq<Machine>, events: seq<Event>, r: nat, i: nat, lost: bool)
    requires |states| == |events| + 1 && i < |states|
  {
    exists x: nat :: r < x < i && AcknowledgesTerminal(states[x], events[x]) && (lost ==> events[x].reply.DeletedButFailed?)
  }

  lemma StepTracksHistory(m: Machine, e: Event)
    requires Enabled(m, e) && !e.MonitorFinishes?
    ensures var m' := Step(m, e);
      if e.RegisterMonitor? && !m.marks.monitored then
        m'.marks.monitored && !m'.acknowledgedSince && !m'.lostReplySince
      else
        && (m.marks.monitored ==> m'.marks.monitored)
        && (m'.acknowledgedSince <==> m.acknowledgedSince || AcknowledgesTerminal(m, e))
        && (m'.lostReplySince <==> m.lostReplySince || (AcknowledgesTerminal(m, e) && e.reply.DeletedButFailed?))
  {
  }

  lemma AcknowledgedOneMore(states: seq<Machine>, events: seq<Event>, r: nat, i: nat, lost: bool)
    requires |states| == |events| + 1 && r + 1 < i < |states|
    ensures AcknowledgedBetween(states, events, r, i, lost) <==>
      || AcknowledgedBetween(states, events, r, i - 1, lost)
      || (AcknowledgesTerminal(states[i - 1], events[i - 1]) && (lost ==> events[i - 1].reply.DeletedButFailed?))
  {
  }

  lemma {:induction false} HistoryFieldsAgree(states: seq<Machine>, events: seq<Event>, r: nat, i: nat)
    requires IsRun(states, events) && i < |states| && RegisteredAt(states, events, r, i)
    ensures states[i].marks.monitored
    ensures states[i].acknowledgedSince <==> AcknowledgedBetween(states, events, r, i, false)
    ensures states[i].lostReplySince <==> AcknowledgedBetween(states, events, r, i, true)
  {
    hide Step, AcknowledgesTerminal;
    StepTracksHistory(states[i - 1], events[i - 1]);
    if i - 1 > r {
      assert RegisteredAt(states, events, r, i - 1);
      HistoryFieldsAgree(states, events, r, i - 1);
      AcknowledgedOneMore(states, events, r, i, false);
      AcknowledgedOneMore(states, events, r, i, true);
    }
  }

  lemma {:induction false} MonitorHasRegistration(states: seq<Machine>, events: seq<Event>, i: nat) returns (r: nat)
    requires IsRun(states, events) && i < |states| && states[i].marks.monitored
    ensures RegisteredAt(states, events, r, i)
  {
    var before, e := states[i - 1], events[i - 1];
    assert Enabled(before, e) && states[i] == Step(before, e);
    RunKeepsInv(states, events, i - 1);
    if before.marks.monitored {
      r := MonitorHasRegistration(states, events, i - 1);
    } else {
      r := i - 1;
    }
  }

  // ------------------------------------------------------------------ theorems

  /** An execution is marked acknowledged only while its monitor is registered. */
  lemma MarkedOnlyWhileMonitored(states: seq<Machine>, events: seq<Event>, i: nat)
    requires IsRun(states, events) && i < |states|
    ensures states[i].marks.acknowledged ==> states[i].marks.monitored
  {
    RunKeepsInv(states, events, i);
  }

  /** Unless the runtime is degraded, the monitor publishes only when the execution has
      no terminal update pending; and it has none acknowledged since the monitor was
      registered exactly when no acknowledgement since then lost its reply. */
  lemma MonitorPublishesAlone(states: seq<Machine>, events: seq<Event>, i: nat) returns (r: nat)
    requires IsRun(states, events) && i < |events| && events[i].Publish? && !states[i].degraded
    ensures RegisteredAt(states, events, r, i)
    ensures states[i].pending == {}
    ensures !AcknowledgedBetween(states, events, r, i, false) <==> !AcknowledgedBetween(states, events, r, i, true)
  {
    RunKeepsInv(states, events, i);
    assert Enabled(states[i], events[i]);
    r := MonitorHasRegistration(states, events, i);
    HistoryFieldsAgree(states, events, r, i);
  }

  ghost predicate EndsIn(states: seq<Machine>, events: seq<Event>, last: Machine) {
    IsRun(states, events) && states[|events|] == last
  }

  ghost predicate Reachable(m: Machine) {
    exists states, events :: EndsIn(states, events, m)
  }

  lemma Reach(m: Machine, e: Event) returns (next: Machine)
    requires Reachable(m) && Enabled(m, e)
    ensures next == Step(m, e) && Reachable(next)
  {
    var states, events :| EndsIn(states, events, m);
    next := Step(m, e);
    assert EndsIn(states + [next], events + [e], next);
  }

  const CANCELLED := Machine(Marks(true, false), false, {"cancelled"}, None, Wanting, None, false, false)

  lemma CancelledReachable()
    ensures Reachable(CANCELLED)
  {
    var m := Machine(Marks(false, false), false, {}, None, Idle, None, false, false);
    assert EndsIn([m], [], m);
    m := Reach(m, CommandLocks);
    m := Reach(m, RegisterMonitor);
    m := Reach(m, CommandPublishes("cancelled"));
    m := Reach(m, CommandUnlocks);
    m := Reach(m, WaitReturns);
    assert m.pending == {"cancelled"};
  }

  /** A lost reply does let the monitor publish a second terminal update: the first row
      was deleted though its acknowledgement failed, the execution is not marked, and the
      runtime is not degraded. */
  lemma LostReplyLetsMonitorPublish() returns (before: Machine, after: Machine)
    ensures Reachable(before) && before.lostReplySince && before.pending == {} && !before.degraded
    ensures Enabled(before, Publish("completed", true, true)) && after == Step(before, Publish("completed", true, true))
    ensures Reachable(after) && after.pending == {"completed"} && !after.degraded
  {
    CancelledReachable();
    var m := Reach(CANCELLED, AckFinds("cancelled"));
    m := Reach(m, AckLocks);
    m := Reach(m, AckDeletes(DeletedButFailed));
    m := Reach(m, AckUnlocks);
    m := Reach(m, MonitorLocks);
    m := Reach(m, CheckAcknowledged);
    before := Reach(m, LookForPending(true));
    after := Reach(before, Publish("completed", true, true));
  }

  // ------------------------------------------------------------ when it stands down

  ghost predicate MarkedBetween(events: seq<Event>, r: nat, i: nat)
    requires i <= |events|
  {
    exists x :: r < x < i && events[x].AckMarks?
  }

  predicate BeforeCheck(stage: MonitorStage) {
    stage.Waiting? || stage.Wanting? || stage.Checking?
  }

  lemma StepMovesMark(m: Machine, e: Event)
    requires Inv(m) && Enabled(m, e) && BeforeCheck(Step(m, e).monitor)
    ensures if m.marks.monitored then
        BeforeCheck(m.monitor) && (Step(m, e).marks.acknowledged <==> m.marks.acknowledged || e.AckMarks?)
      else !Step(m, e).marks.acknowledged
  {
  }

  lemma {:induction false} MarkIsHistory(states: seq<Machine>, events: seq<Event>, r: nat, i: nat)
    requires IsRun(states, events) && i < |states| && RegisteredAt(states, events, r, i) && BeforeCheck(states[i].monitor)
    ensures states[i].marks.acknowledged <==> MarkedBetween(events, r, i)
  {
    hide Step, Enabled, BeforeCheck, Inv;
    RunKeepsInv(states, events, i - 1);
    assert Enabled(states[i - 1], events[i - 1]) && states[i] == Step(states[i - 1], events[i - 1]);
    StepMovesMark(states[i - 1], events[i - 1]);
    if r < i - 1 {
      assert RegisteredAt(states, events, r, i - 1);
      HistoryFieldsAgree(states, events, r, i - 1);
      MarkIsHistory(states, events, r, i - 1);
    }
  }

  /** A monitor that has the lock stands down exactly when a confirmed acknowledgement was
      marked since it was registered, at event r, or when a terminal update is pending. Any
      other monitor goes on to publish, even if the outbox cannot be read. */
  lemma MonitorStandsDown(states: seq<Machine>, events: seq<Event>, r: nat, i: nat)
    requires IsRun(states, events) && i < |events| && RegisteredAt(states, events, r, i)
    ensures events[i].CheckAcknowledged? ==>
      states[i + 1].monitor == if MarkedBetween(events, r, i) then Releasing else Looking
    ensures events[i].LookForPending? ==>
      && states[i + 1].monitor == (if events[i].ok && states[i].pending != {} then Releasing else Deciding)
      && (states[i + 1].degraded <==> states[i].degraded || !events[i].ok)
    ensures events[i].Publish? ==>
      && states[i + 1].pending == states[i].pending + (if events[i].ok && events[i].terminal then {events[i].id} else {})
      && (states[i + 1].degraded <==> states[i].degraded || !events[i].ok)
  {
    assert Enabled(states[i], events[i]) && states[i + 1] == Step(states[i], events[i]);
    if events[i].CheckAcknowledged? { MarkIsHistory(states, events, r, i); }
    hide IsRun, RegisteredAt, MarkedBetween;
  }

  /** An acknowledgement marks the monitor exactly when it deleted a terminal row and was
      told so, and a monitor was registered when it came to mark. */
  lemma OnlyConfirmedAcknowledgementsMark(states: seq<Machine>, events: seq<Event>, i: nat, reply: Reply)
    requires IsRun(states, events) && i < |events| && events[i] == AckDeletes(reply)
    ensures states[i].acker.Some? && states[i + 1].acker.Some?
    ensures var found := states[i].acker.value.id in states[i].pending;
      && (states[i + 1].acker.value.stage == Marking <==> found && reply.Deleted?)
      && states[i + 1].pending == (if reply.Refused? then states[i].pending else states[i].pending - {states[i].acker.value.id})
  {
    assert Enabled(states[i], events[i]) && states[i + 1] == Step(states[i], events[i]);
  }
}
