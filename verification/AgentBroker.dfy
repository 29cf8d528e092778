/** The Controller's agent broker: which session of a node is authoritative, and
    whether a journal snapshot may replace the node's durable authority.

    Every critical section of internal/app/agent_broker.go touches the entries of
    one node only, so each is a function on that node's slice of the broker. The
    class below performs the same sections on the broker's maps. The machine at
    the end interleaves them: one step per `broker.mu` section, with the per-node
    lifecycle lock held across the sections that share it. */
module Broker {
  import opened Common

  type NodeID = string

  /** A session actor is identified by its generation: allocation never repeats one. */
  datatype Capture = Capture(actor: nat, commandSequence: nat, commandWasInFlight: bool)

  /** The contexts made for observers of a node that is not ready: how many so far, the
      one that is kept, and those cancelled. */
  datatype OfflineChanges = OfflineChanges(kept: Option<nat>, made: nat, cancelled: set<nat>)

  datatype NodeState = NodeState(
    closed: bool,
    session: Option<nat>,
    ready: set<nat>,
    terminated: set<nat>,
    commandSequence: nat,
    inFlight: Option<nat>,
    capture: Option<Capture>,
    disconnect: Option<nat>,
    disconnectFailed: bool,
    generations: nat,
    projected: nat,
    offline: OfflineChanges)

  datatype Verdict = Accepted | BrokerClosed | SessionReplaced | Protocol | DisconnectCommit | Terminated

  datatype Outcome = Outcome(state: NodeState, verdict: Verdict)

  const FRESH := NodeState(false, None, {}, {}, 0, None, None, None, false, 0, 0, NO_CHANGES)

  const NO_CHANGES := OfflineChanges(None, 0, {})

  // ---------------------------------------------------------------- sections

  function Allocate(s: NodeState): Outcome {
    if s.closed then Outcome(s, BrokerClosed)
    else if s.generations == MAX_UINT64 then Outcome(s, Protocol)
    else Outcome(s.(generations := s.generations + 1), Accepted)
  }

  function BeginCapture(s: NodeState, g: nat): Outcome {
    if s.closed then Outcome(s, BrokerClosed)
    else if s.disconnect.Some? then Outcome(s, DisconnectCommit)
    else if g <= s.projected then Outcome(s, SessionReplaced)
    else if s.capture.Some? && s.capture.value.actor >= g then Outcome(s, SessionReplaced)
    else Outcome(s.(capture := Some(Capture(g, s.commandSequence, s.inFlight.Some?))), Accepted)
  }

  function EndCapture(s: NodeState, g: nat): NodeState {
    if s.capture.Some? && s.capture.value.actor == g then s.(capture := None) else s
  }

  /** The saved sequence number and in-flight flag agree with the node's command state. */
  predicate CaptureUndisturbed(s: NodeState) {
    && s.capture.Some?
    && !s.capture.value.commandWasInFlight
    && s.inFlight.None?
    && s.capture.value.commandSequence == s.commandSequence
  }

  function MayProject(s: NodeState, g: nat): Verdict {
    if s.closed then BrokerClosed
    else if s.capture.None? || s.capture.value.actor != g || !CaptureUndisturbed(s) || g <= s.projected
      then SessionReplaced
    else Accepted
  }

  function RecordProjection(s: NodeState, g: nat): Outcome {
    if MayProject(s, g).Accepted? then Outcome(s.(projected := g), Accepted)
    else Outcome(s, MayProject(s, g))
  }

  function Activate(s: NodeState, g: nat): Outcome {
    if s.closed then Outcome(s, BrokerClosed)
    else if g == 0 || s.projected != g then Outcome(s, SessionReplaced)
    else Outcome(s.(session := Some(g)), Accepted)
  }

  predicate IsProjectedSession(s: NodeState, g: nat) {
    !s.closed && s.session == Some(g) && s.projected == g
  }

  predicate IsReady(s: NodeState, g: nat) {
    g in s.ready && g !in s.terminated
  }

  function MakeChange(o: OfflineChanges): OfflineChanges {
    o.(kept := Some(o.made), made := o.made + 1)
  }

  function CancelChange(o: OfflineChanges): OfflineChanges {
    if o.kept.Some? then o.(kept := None, cancelled := o.cancelled + {o.kept.value}) else o
  }

  /** Readiness of a node that is not ready: the observer gets the kept context, or a new
      one. A ready node's context belongs to its session. */
  function ObserveReadiness(s: NodeState): NodeState {
    if s.closed || (s.session.Some? && IsReady(s, s.session.value)) || s.offline.kept.Some? then s
    else s.(offline := MakeChange(s.offline))
  }

  function MarkReady(s: NodeState, g: nat): Outcome {
    if !IsProjectedSession(s, g) then Outcome(s, SessionReplaced)
    else if g in s.terminated then Outcome(s, Terminated)
    else Outcome(s.(ready := s.ready + {g}, disconnectFailed := false, offline := CancelChange(s.offline)), Accepted)
  }

  function BeginDispatch(s: NodeState, g: nat): Outcome {
    if !IsProjectedSession(s, g) || !IsReady(s, g) then Outcome(s, SessionReplaced)
    else if s.inFlight.Some? || s.commandSequence == MAX_UINT64 then Outcome(s, Protocol)
    else Outcome(s.(commandSequence := s.commandSequence + 1, inFlight := Some(g)), Accepted)
  }

  function EndDispatch(s: NodeState, g: nat): NodeState {
    if s.inFlight == Some(g) then s.(inFlight := None) else s
  }

  /** A new context takes the place of the kept one, which is not cancelled. */
  function RemoveSession(s: NodeState, g: nat): NodeState {
    if s.session != Some(g) then s
    else s.(session := None, offline := if s.closed then s.offline else MakeChange(s.offline))
  }

  function BeginDisconnect(s: NodeState, g: nat): NodeState {
    if s.disconnect.Some? then s.(disconnectFailed := true) else s.(disconnect := Some(g))
  }

  function FinishDisconnect(s: NodeState, g: nat, committed: bool): NodeState {
    if s.disconnect == Some(g) then s.(disconnect := None, disconnectFailed := !committed) else s
  }

  function Terminate(s: NodeState, g: nat): NodeState {
    s.(terminated := s.terminated + {g})
  }

  function Close(s: NodeState): NodeState {
    if s.closed then s
    else s.(closed := true, disconnectFailed := false, inFlight := None, capture := None, offline := CancelChange(s.offline))
  }

  function CloseAndTerminate(s: NodeState): NodeState {
    if !s.closed && s.session.Some? then Terminate(Close(s), s.session.value) else Close(s)
  }

  function ActorOf(actors: map<NodeID, nat>, n: NodeID): set<nat> {
    if n in actors then {actors[n]} else {}
  }

  // ------------------------------------------------------------------- class

  /** The broker's maps. A slice collects the entries of one node. */
  class AgentBroker {
    const tracksDisconnects: bool
    var closed: bool
    var sessions: map<NodeID, nat>
    var readyAcked: map<NodeID, set<nat>>
    var terminated: map<NodeID, set<nat>>
    var commandSequences: map<NodeID, nat>
    var commandsInFlight: map<NodeID, nat>
    var snapshotCaptures: map<NodeID, Capture>
    var disconnectProjections: map<NodeID, nat>
    var disconnectErrors: set<NodeID>
    var sessionGeneration: map<NodeID, nat>
    var projectedGeneration: map<NodeID, nat>
    var offlineChanges: map<NodeID, OfflineChanges>

    ghost function Slice(n: NodeID): NodeState
      reads this
    {
      NodeState(
        closed,
        Lookup(sessions, n),
        GetOr(readyAcked, n, {}),
        GetOr(terminated, n, {}),
        GetOr(commandSequences, n, 0),
        Lookup(commandsInFlight, n),
        Lookup(snapshotCaptures, n),
        Lookup(disconnectProjections, n),
        n in disconnectErrors,
        GetOr(sessionGeneration, n, 0),
        GetOr(projectedGeneration, n, 0),
        GetOr(offlineChanges, n, NO_CHANGES))
    }

    constructor (tracksDisconnects: bool)
      ensures forall n :: Slice(n) == FRESH
      ensures this.tracksDisconnects == tracksDisconnects
    {
      this.tracksDisconnects := tracksDisconnects;
      closed, sessions, readyAcked, terminated := false, map[], map[], map[];
      commandSequences, commandsInFlight, snapshotCaptures := map[], map[], map[];
      disconnectProjections, disconnectErrors := map[], {};
      sessionGeneration, projectedGeneration, offlineChanges := map[], map[], map[];
    }

    method AllocateSessionGeneration(n: NodeID) returns (verdict: Verdict, generation: nat)
      modifies this
      ensures Outcome(Slice(n), verdict) == Allocate(old(Slice(n)))
      ensures verdict.Accepted? ==> generation == Slice(n).generations
      ensures forall m :: m != n ==> Slice(m) == old(Slice(m))
    {
      if closed {
        return BrokerClosed, 0;
      }
      generation := GetOr(sessionGeneration, n, 0);
      if generation == MAX_UINT64 {
        return Protocol, 0;
      }
      generation := generation + 1;
      sessionGeneration := sessionGeneration[n := generation];
      verdict := Accepted;
    }

    method TerminateActor(n: NodeID, g: nat)
      modifies this`terminated
      ensures Slice(n) == Terminate(old(Slice(n)), g)
      ensures forall m :: m != n ==> Slice(m) == old(Slice(m))
    {
      terminated := terminated[n := GetOr(terminated, n, {}) + {g}];
    }

    /** A capture that supersedes an older one also terminates the older actor. */
    method BeginSnapshotCapture(n: NodeID, g: nat) returns (verdict: Verdict)
      modifies this
      ensures verdict == BeginCapture(old(Slice(n)), g).verdict
      ensures Slice(n) ==
        var after := BeginCapture(old(Slice(n)), g).state;
        if verdict.Accepted? && old(Slice(n)).capture.Some? then
          Terminate(after, old(Slice(n)).capture.value.actor)
        else after
      ensures forall m :: m != n ==> Slice(m) == old(Slice(m))
    {
      if closed {
        return BrokerClosed;
      }
      if n in disconnectProjections {
        return DisconnectCommit;
      }
      if g <= GetOr(projectedGeneration, n, 0) {
        return SessionReplaced;
      }
      var previous := Lookup(snapshotCaptures, n);
      if previous.Some? && previous.value.actor >= g {
        return SessionReplaced;
      }
      snapshotCaptures := snapshotCaptures[n := Capture(g, GetOr(commandSequences, n, 0), n in commandsInFlight)];
      if previous.Some? {
        TerminateActor(n, previous.value.actor);
      }
      verdict := Accepted;
    }

    method EndSnapshotCapture(n: NodeID, g: nat)
      modifies this`snapshotCaptures
      ensures Slice(n) == EndCapture(old(Slice(n)), g)
      ensures forall m :: m != n ==> Slice(m) == old(Slice(m))
    {
      if n in snapshotCaptures && snapshotCaptures[n].actor == g {
        snapshotCaptures := snapshotCaptures - {n};
      }
    }

    method CheckProjection(n: NodeID, g: nat) returns (verdict: Verdict)
      ensures verdict == MayProject(Slice(n), g)
    {
      if closed {
        return BrokerClosed;
      }
      if n !in snapshotCaptures ||
        snapshotCaptures[n].actor != g ||
        snapshotCaptures[n].commandWasInFlight ||
        n in commandsInFlight ||
        snapshotCaptures[n].commandSequence != GetOr(commandSequences, n, 0) ||
        g <= GetOr(projectedGeneration, n, 0)
      {
        return SessionReplaced;
      }
      verdict := Accepted;
    }

    method CommitProjection(n: NodeID, g: nat) returns (verdict: Verdict)
      modifies this`projectedGeneration
      ensures Outcome(Slice(n), verdict) == RecordProjection(old(Slice(n)), g)
      ensures forall m :: m != n ==> Slice(m) == old(Slice(m))
    {
      verdict := CheckProjection(n, g);
      if verdict.Accepted? {
        projectedGeneration := projectedGeneration[n := g];
      }
    }

    /** Activation replaces the previous session and terminates its actor. */
    method ActivateSession(n: NodeID, g: nat) returns (verdict: Verdict)
      modifies this
      ensures verdict == Activate(old(Slice(n)), g).verdict
      ensures Slice(n) ==
        var after := Activate(old(Slice(n)), g).state;
        var previous := old(Slice(n)).session;
        if verdict.Accepted? && previous.Some? && previous != Some(g) then Terminate(after, previous.value)
        else after
      ensures forall m :: m != n ==> Slice(m) == old(Slice(m))
    {
      if closed {
        return BrokerClosed;
      }
      if g == 0 || GetOr(projectedGeneration, n, 0) != g {
        return SessionReplaced;
      }
      var previous := Lookup(sessions, n);
      sessions := sessions[n := g];
      if previous.Some? && previous.value != g {
        TerminateActor(n, previous.value);
      }
      verdict := Accepted;
    }

    method MarkActorReady(n: NodeID, g: nat) returns (verdict: Verdict)
      modifies this
      ensures Outcome(Slice(n), verdict) == MarkReady(old(Slice(n)), g)
      ensures forall m :: m != n ==> Slice(m) == old(Slice(m))
    {
      if closed || Lookup(sessions, n) != Some(g) || GetOr(projectedGeneration, n, 0) != g {
        return SessionReplaced;
      }
      if g in GetOr(terminated, n, {}) {
        return Terminated;
      }
      readyAcked := readyAcked[n := GetOr(readyAcked, n, {}) + {g}];
      offlineChanges := offlineChanges[n := CancelChange(GetOr(offlineChanges, n, NO_CHANGES))];
      disconnectErrors := disconnectErrors - {n};
      verdict := Accepted;
    }

    /** The context an observer of a node that is not ready gets, if there is one to get. */
    method Readiness(n: NodeID) returns (change: Option<nat>)
      modifies this`offlineChanges
      ensures Slice(n) == ObserveReadiness(old(Slice(n)))
      ensures forall m :: m != n ==> Slice(m) == old(Slice(m))
      ensures var before := old(Slice(n));
        change == if before.closed || (before.session.Some? && IsReady(before, before.session.value)) then None
                  else Slice(n).offline.kept
    {
      if closed { return None; }
      if n in sessions && sessions[n] in GetOr(readyAcked, n, {}) && sessions[n] !in GetOr(terminated, n, {}) {
        return None;
      }
      var changes := GetOr(offlineChanges, n, NO_CHANGES);
      if changes.kept.None? { changes := MakeChange(changes); }
      offlineChanges := offlineChanges[n := changes];
      change := changes.kept;
    }

    method BeginCommandDispatch(n: NodeID, g: nat) returns (verdict: Verdict)
      modifies this
      ensures Outcome(Slice(n), verdict) == BeginDispatch(old(Slice(n)), g)
      ensures forall m :: m != n ==> Slice(m) == old(Slice(m))
    {
      if closed || Lookup(sessions, n) != Some(g) || GetOr(projectedGeneration, n, 0) != g {
        return SessionReplaced;
      }
      if g !in GetOr(readyAcked, n, {}) || g in GetOr(terminated, n, {}) {
        return SessionReplaced;
      }
      if n in commandsInFlight {
        return Protocol;
      }
      if GetOr(commandSequences, n, 0) == MAX_UINT64 {
        return Protocol;
      }
      commandSequences := commandSequences[n := GetOr(commandSequences, n, 0) + 1];
      commandsInFlight := commandsInFlight[n := g];
      verdict := Accepted;
    }

    method EndCommandDispatch(n: NodeID, g: nat)
      modifies this`commandsInFlight
      ensures Slice(n) == EndDispatch(old(Slice(n)), g)
      ensures forall m :: m != n ==> Slice(m) == old(Slice(m))
    {
      if Lookup(commandsInFlight, n) == Some(g) {
        commandsInFlight := commandsInFlight - {n};
      }
    }

    /** Returns whether a durable disconnect projection now has to be committed. */
    method DeactivateUnderLifecycle(n: NodeID, g: nat) returns (project: bool)
      modifies this
      ensures var removed := old(Slice(n)).session == Some(g);
        && project == (removed && tracksDisconnects && old(Slice(n)).disconnect.None?)
        && Slice(n) == if removed && tracksDisconnects then BeginDisconnect(RemoveSession(old(Slice(n)), g), g)
                       else RemoveSession(old(Slice(n)), g)
      ensures forall m :: m != n ==> Slice(m) == old(Slice(m))
    {
      var deactivated := false;
      if Lookup(sessions, n) == Some(g) {
        sessions := sessions - {n};
        deactivated := true;
        if !closed {
          offlineChanges := offlineChanges[n := MakeChange(GetOr(offlineChanges, n, NO_CHANGES))];
        }
      }
      if !deactivated || !tracksDisconnects {
        return false;
      }
      project := BeginDisconnectProjection(n, g);
    }

    method BeginDisconnectProjection(n: NodeID, g: nat) returns (began: bool)
      modifies this`disconnectProjections, this`disconnectErrors
      ensures Slice(n) == BeginDisconnect(old(Slice(n)), g)
      ensures began == old(Slice(n)).disconnect.None?
      ensures forall m :: m != n ==> Slice(m) == old(Slice(m))
    {
      if n in disconnectProjections {
        disconnectErrors := disconnectErrors + {n};
        return false;
      }
      disconnectProjections := disconnectProjections[n := g];
      began := true;
    }

    method FinishDisconnectProjection(n: NodeID, g: nat, committed: bool)
      modifies this`disconnectProjections, this`disconnectErrors
      ensures Slice(n) == FinishDisconnect(old(Slice(n)), g, committed)
      ensures forall m :: m != n ==> Slice(m) == old(Slice(m))
    {
      if Lookup(disconnectProjections, n) != Some(g) {
        return;
      }
      disconnectProjections := disconnectProjections - {n};
      disconnectErrors := if committed then disconnectErrors - {n} else disconnectErrors + {n};
    }

    /** Close acts on every node at once and terminates each active session. */
    method CloseBroker()
      modifies this
      ensures forall n :: Slice(n) == CloseAndTerminate(old(Slice(n)))
    {
      if closed {
        return;
      }
      CloseMaps();
      TerminateActors(sessions);
    }

    method CloseMaps()
      requires !closed
      modifies this
      ensures forall n :: Slice(n) == Close(old(Slice(n)))
    {
      closed := true;
      CancelOfflineChanges();
      disconnectErrors := {};
      commandsInFlight := map[];
      snapshotCaptures := map[];
    }

    method CancelOfflineChanges()
      modifies this`offlineChanges
      ensures forall n :: GetOr(offlineChanges, n, NO_CHANGES) == CancelChange(GetOr(old(offlineChanges), n, NO_CHANGES))
    {
      var pending := offlineChanges.Keys;
      while pending != {}
        invariant pending <= offlineChanges.Keys == old(offlineChanges).Keys
        invariant forall n :: n in offlineChanges ==>
          offlineChanges[n] == if n in pending then old(offlineChanges)[n] else CancelChange(old(offlineChanges)[n])
        decreases |pending|
      {
        var n :| n in pending;
        pending := pending - {n};
        offlineChanges := offlineChanges[n := CancelChange(offlineChanges[n])];
      }
    }

    method TerminateActors(actors: map<NodeID, nat>)
      modifies this`terminated
      ensures forall n :: GetOr(terminated, n, {}) == GetOr(old(terminated), n, {}) + ActorOf(actors, n)
    {
      var pending := actors.Keys;
      while pending != {}
        invariant pending <= actors.Keys
        invariant forall n :: n in pending || n !in actors ==>
          GetOr(terminated, n, {}) == GetOr(old(terminated), n, {})
        invariant forall n :: n in actors && n !in pending ==>
          GetOr(terminated, n, {}) == GetOr(old(terminated), n, {}) + {actors[n]}
        decreases |pending|
      {
        var n :| n in pending;
        pending := pending - {n};
        terminated := terminated[n := GetOr(terminated, n, {}) + {actors[n]}];
      }
    }
  }

  // ----------------------------------------------------------------- machine

  /** Where the holder of the node's lifecycle lock stands. */
  datatype Stage =
    | Locked            // lock taken, mayProject not yet called
    | Allowed           // mayProject accepted, snapshot consumer running
    | Committed         // the durable snapshot commit returned nil
    | Recorded          // recordProjection accepted
    | Activated         // activate accepted, the capture still registered
    | Rejected          // a projection step failed, disconnect not yet queued
    | Unwinding         // disconnect queued, the capture still registered
    | Deactivated       // session removed, disconnect not yet queued
    | HeartbeatAllowed  // currentProjectedActor accepted, readiness commit pending

  datatype Hold = Hold(g: nat, stage: Stage)

  datatype Machine = Machine(node: NodeState, hold: Option<Hold>, tracksDisconnects: bool)

  datatype Event =
    | AllocateEvent
    | BeginCaptureEvent(g: nat)
    | EndCaptureEvent(g: nat)
    | LockForSnapshot(g: nat)
    | MayProjectEvent
    | CommitSnapshot(ok: bool)
    | RecordProjectionEvent
    | ActivateEvent
    | QueueDisconnect
    | EndCaptureAndUnlock
    | MarkReadyEvent(g: nat)
    | TerminateEvent(g: nat)
    | BeginDispatchEvent(g: nat)
    | EndDispatchEvent(g: nat)
    | DeactivateEvent(g: nat)
    | FinishDisconnectEvent(g: nat, ok: bool)
    | LockForHeartbeat(g: nat)
    | CommitReadiness(ok: bool)
    | CloseEvent
    | ReadinessEvent

  predicate Allocated(m: Machine, g: nat) {
    1 <= g <= m.node.generations
  }

  predicate HeldAt(m: Machine, stage: Stage) {
    m.hold.Some? && m.hold.value.stage == stage
  }

  /** Any allocated actor may attempt any section whenever its lock is free: the
      actor's own order of calls is not needed for what is proved here. */
  predicate Enabled(m: Machine, e: Event) {
    match e
    case AllocateEvent => true
    case MarkReadyEvent(g) => Allocated(m, g)
    case TerminateEvent(g) => Allocated(m, g)
    case CloseEvent => true
    case ReadinessEvent => true
    case BeginCaptureEvent(g) => Allocated(m, g) && m.hold.None?
    case EndCaptureEvent(g) => Allocated(m, g) && m.hold.None?
    case LockForSnapshot(g) => Allocated(m, g) && m.hold.None?
    case BeginDispatchEvent(g) => Allocated(m, g) && m.hold.None?
    case EndDispatchEvent(g) => Allocated(m, g) && m.hold.None?
    case DeactivateEvent(g) => Allocated(m, g) && m.hold.None?
    case FinishDisconnectEvent(g, ok) => Allocated(m, g) && m.hold.None?
    case LockForHeartbeat(g) => Allocated(m, g) && m.hold.None?
    case MayProjectEvent => HeldAt(m, Locked)
    case CommitSnapshot(ok) => HeldAt(m, Allowed)
    case RecordProjectionEvent => HeldAt(m, Committed)
    case ActivateEvent => HeldAt(m, Recorded)
    case QueueDisconnect => HeldAt(m, Rejected) || HeldAt(m, Deactivated)
    case EndCaptureAndUnlock => HeldAt(m, Activated) || HeldAt(m, Unwinding)
    case CommitReadiness(ok) => HeldAt(m, HeartbeatAllowed)
  }

  function Advance(m: Machine, node: NodeState, stage: Stage): Machine
    requires m.hold.Some?
  {
    m.(node := node, hold := Some(m.hold.value.(stage := stage)))
  }

  function Step(m: Machine, e: Event): Machine
    requires Enabled(m, e)
  {
    match e
    case AllocateEvent => m.(node := Allocate(m.node).state)
    case MarkReadyEvent(g) => m.(node := MarkReady(m.node, g).state)
    case TerminateEvent(g) => m.(node := Terminate(m.node, g))
    case CloseEvent => m.(node := Close(m.node))
    case ReadinessEvent => m.(node := ObserveReadiness(m.node))
    case BeginCaptureEvent(g) => m.(node := BeginCapture(m.node, g).state)
    case EndCaptureEvent(g) => m.(node := EndCapture(m.node, g))
    case LockForSnapshot(g) => m.(hold := Some(Hold(g, Locked)))
    case BeginDispatchEvent(g) => m.(node := BeginDispatch(m.node, g).state)
    case EndDispatchEvent(g) => m.(node := EndDispatch(m.node, g))
    case DeactivateEvent(g) =>
      if m.node.session == Some(g) && m.tracksDisconnects then
        m.(node := RemoveSession(m.node, g), hold := Some(Hold(g, Deactivated)))
      else m.(node := RemoveSession(m.node, g))
    case FinishDisconnectEvent(g, ok) => m.(node := FinishDisconnect(m.node, g, ok))
    case LockForHeartbeat(g) =>
      if IsProjectedSession(m.node, g) && IsReady(m.node, g) then m.(hold := Some(Hold(g, HeartbeatAllowed)))
      else m
    case MayProjectEvent =>
      if MayProject(m.node, m.hold.value.g).Accepted? then Advance(m, m.node, Allowed) else m.(hold := None)
    case CommitSnapshot(ok) =>
      if ok then Advance(m, m.node, Committed) else m.(hold := None)
    case RecordProjectionEvent =>
      var r := RecordProjection(m.node, m.hold.value.g);
      Advance(m, r.state, if r.verdict.Accepted? then Recorded else Rejected)
    case ActivateEvent =>
      var r := Activate(m.node, m.hold.value.g);
      Advance(m, r.state, if r.verdict.Accepted? then Activated else Rejected)
    case QueueDisconnect =>
      var node := if m.tracksDisconnects then BeginDisconnect(m.node, m.hold.value.g) else m.node;
      if HeldAt(m, Rejected) then Advance(m, node, Unwinding) else m.(node := node, hold := None)
    case EndCaptureAndUnlock => m.(node := EndCapture(m.node, m.hold.value.g), hold := None)
    case CommitReadiness(ok) => m.(hold := None)
  }

  predicate Initial(m: Machine) {
    m.node == FRESH && m.hold.None?
  }

  ghost predicate IsRun(states: seq<Machine>, events: seq<Event>) {
    && |states| == |events| + 1
    && Initial(states[0])
    && forall i :: 0 <= i < |events| ==> Enabled(states[i], events[i]) && states[i + 1] == Step(states[i], events[i])
  }

  // --------------------------------------------------------------- invariant

  /** Outside the window between recordProjection and activate, the active session
      is the projected one; the rest says why nothing can come between the checks
      made under one lifecycle hold. */
  ghost predicate Inv(m: Machine) {
    var s := m.node;
    && s.projected <= s.generations
    && (s.capture.Some? ==> !s.closed && 1 <= s.capture.value.actor <= s.generations)
    && (s.inFlight.Some? ==> !s.closed && s.inFlight.value == s.projected)
    && (s.session.Some? ==> s.session.value <= s.projected)
    && (!s.closed && s.session.Some? && !HeldAt(m, Recorded) ==> s.session.value == s.projected)
    && (m.hold.Some? ==> Allocated(m, m.hold.value.g))
    && ((HeldAt(m, Allowed) || HeldAt(m, Committed)) ==>
          && m.hold.value.g > s.projected
          && (!s.closed ==> MayProject(s, m.hold.value.g).Accepted?))
    && ((HeldAt(m, Recorded) || HeldAt(m, Activated) || HeldAt(m, HeartbeatAllowed)) ==>
          m.hold.value.g == s.projected)
    && (HeldAt(m, Rejected) ==> s.closed)
  }

  /** The sections that do not belong to a lifecycle hold already begun. */
  predicate IsSessionStep(e: Event) {
    !(e.MayProjectEvent? || e.CommitSnapshot? || e.RecordProjectionEvent? || e.ActivateEvent? ||
      e.QueueDisconnect? || e.EndCaptureAndUnlock? || e.CommitReadiness?)
  }

  ghost predicate OnlyRises(m: Machine, n: Machine) {
    && m.node.projected <= n.node.projected
    && m.node.generations <= n.node.generations
    && (m.node.closed ==> n.node.closed)
  }

  lemma SessionStepKeepsInv(m: Machine, e: Event)
    requires Inv(m) && Enabled(m, e) && IsSessionStep(e)
    ensures Inv(Step(m, e)) && OnlyRises(m, Step(m, e))
  {
  }

  lemma HoldStepKeepsInv(m: Machine, e: Event)
    requires Inv(m) && Enabled(m, e) && !IsSessionStep(e)
    ensures Inv(Step(m, e)) && OnlyRises(m, Step(m, e))
  {
  }

  lemma StepKeepsInv(m: Machine, e: Event)
    requires Inv(m) && Enabled(m, e)
    ensures Inv(Step(m, e)) && OnlyRises(m, Step(m, e))
  {
    hide Inv, Step, Enabled;
    if IsSessionStep(e) { SessionStepKeepsInv(m, e); } else { HoldStepKeepsInv(m, e); }
  }

  lemma {:induction false} RunKeepsInv(states: seq<Machine>, events: seq<Event>, i: nat)
    requires IsRun(states, events) && i < |states|
    ensures Inv(states[i])
  {
    if i > 0 {
      hide Step;
      RunKeepsInv(states, events, i - 1);
      StepKeepsInv(states[i - 1], events[i - 1]);
    }
  }

  // ---------------------------------------------------------------- theorems

  /** In every reachable unclosed state with the lifecycle lock free, the active
      session is the projected one, and so is the session of a command in flight. */
  lemma AuthorityAgrees(states: seq<Machine>, events: seq<Event>, i: nat)
    requires IsRun(states, events) && i < |states|
    ensures var s := states[i].node;
      && s.projected <= s.generations
      && (s.inFlight.Some? ==> s.inFlight.value == s.projected)
      && (!s.closed && states[i].hold.None? && s.session.Some? ==> s.session.value == s.projected)
  {
    RunKeepsInv(states, events, i);
  }

  lemma MarkOnlyRises(states: seq<Machine>, events: seq<Event>, i: nat, j: nat)
    requires IsRun(states, events) && i <= j < |states|
    ensures states[i].node.projected <= states[j].node.projected <= states[j].node.generations
    ensures states[i].node.generations <= states[j].node.generations
    ensures states[i].node.closed ==> states[j].node.closed
  {
    RunKeepsInv(states, events, j);
    StatesOnlyRise(states, events, i, j);
    hide IsRun;
  }

  lemma {:induction false} StatesOnlyRise(states: seq<Machine>, events: seq<Event>, i: nat, j: nat)
    requires IsRun(states, events) && i <= j < |states|
    ensures OnlyRises(states[i], states[j])
    decreases j
  {
    hide Step, Inv, Enabled;
    if i < j {
      StatesOnlyRise(states, events, i, j - 1);
      RunKeepsInv(states, events, j - 1);
      StepKeepsInv(states[j - 1], events[j - 1]);
    }
  }

  /** The step by which session g writes durable authority or sends a command. */
  predicate ActsWithAuthority(m: Machine, e: Event, g: nat) {
    match e
    case CommitSnapshot(ok) => m.hold == Some(Hold(g, Allowed))
    case CommitReadiness(ok) => m.hold == Some(Hold(g, HeartbeatAllowed))
    case ActivateEvent => m.hold == Some(Hold(g, Recorded)) && Activate(m.node, g).verdict.Accepted?
    case MarkReadyEvent(h) => h == g && MarkReady(m.node, g).verdict.Accepted?
    case BeginDispatchEvent(h) => h == g && BeginDispatch(m.node, g).verdict.Accepted?
    case _ => false
  }

  /** Once a later session has been projected, a delayed or replaced one never
      commits a snapshot or readiness, becomes the session, or dispatches again. */
  lemma SupersededSessionStaysOut(states: seq<Machine>, events: seq<Event>, i: nat, j: nat, g: nat)
    requires IsRun(states, events) && i <= j < |events|
    requires g < states[i].node.projected
    ensures !ActsWithAuthority(states[j], events[j], g)
  {
    MarkOnlyRises(states, events, i, j);
    RunKeepsInv(states, events, j);
    assert Enabled(states[j], events[j]);
  }

  /** Under one lifecycle hold, the projection that follows an accepted mayProject
      is refused only when the broker was closed in between; so is the activation. */
  lemma ProjectionFailsOnlyWhenClosed(states: seq<Machine>, events: seq<Event>, i: nat)
    requires IsRun(states, events) && i < |states|
    ensures HeldAt(states[i], Committed) ==>
      (RecordProjection(states[i].node, states[i].hold.value.g).verdict.Accepted? <==> !states[i].node.closed)
    ensures HeldAt(states[i], Recorded) ==>
      (Activate(states[i].node, states[i].hold.value.g).verdict.Accepted? <==> !states[i].node.closed)
  {
    RunKeepsInv(states, events, i);
  }

  // ------------------------------------------- capture interval and dispatch

  /** Event c begins the capture that is still registered in state k. */
  ghost predicate CaptureSpans(states: seq<Machine>, events: seq<Event>, c: nat, k: nat) {
    && IsRun(states, events)
    && c < k < |states|
    && events[c].BeginCaptureEvent?
    && BeginCapture(states[c].node, events[c].g).verdict.Accepted?
    && forall i :: c < i <= k ==> states[i].node.capture == states[c + 1].node.capture
  }

  /** Event b began a dispatch of session g that neither its own end nor a close has ended before state i. */
  ghost predicate DispatchedSince(states: seq<Machine>, events: seq<Event>, b: nat, i: nat, g: nat)
    requires |states| == |events| + 1 && i < |states|
  {
    && b < i
    && events[b] == BeginDispatchEvent(g)
    && states[b].node.commandSequence < states[b + 1].node.commandSequence
    && forall x :: b < x < i ==> events[x] != EndDispatchEvent(g) && !events[x].CloseEvent?
  }

  ghost predicate DispatchOpen(states: seq<Machine>, events: seq<Event>, i: nat, g: nat)
    requires |states| == |events| + 1 && i < |states|
  {
    exists b: nat :: DispatchedSince(states, events, b, i, g)
  }

  /** How one step changes the in-flight entry. */
  lemma StepMovesInFlight(m: Machine, e: Event, g: nat)
    requires Inv(m) && Enabled(m, e)
    ensures Step(m, e).node.inFlight == Some(g) <==>
      || (e == BeginDispatchEvent(g) && m.node.commandSequence < Step(m, e).node.commandSequence)
      || (m.node.inFlight == Some(g) && e != EndDispatchEvent(g) && !e.CloseEvent?)
  {
  }

  /** The in-flight entry names exactly the session whose dispatch is open. */
  lemma {:induction false} InFlightIsOpenDispatch(states: seq<Machine>, events: seq<Event>, i: nat, g: nat)
    requires IsRun(states, events) && i < |states|
    ensures states[i].node.inFlight == Some(g) <==> DispatchOpen(states, events, i, g)
  {
    hide Step, Inv, BeginDispatch;
    if i == 0 {
      assert states[0].node.inFlight.None?;
    } else {
      var before, e := states[i - 1], events[i - 1];
      assert Enabled(before, e) && states[i] == Step(before, e);
      InFlightIsOpenDispatch(states, events, i - 1, g);
      RunKeepsInv(states, events, i - 1);
      StepMovesInFlight(before, e, g);
      if DispatchOpen(states, events, i, g) {
        var b: nat :| DispatchedSince(states, events, b, i, g);
        assert b == i - 1 || DispatchedSince(states, events, b, i - 1, g);
      }
      if e == BeginDispatchEvent(g) && before.node.commandSequence < states[i].node.commandSequence {
        assert DispatchedSince(states, events, i - 1, i, g);
      } else if before.node.inFlight == Some(g) && e != EndDispatchEvent(g) && !e.CloseEvent? {
        var b: nat :| DispatchedSince(states, events, b, i - 1, g);
        assert DispatchedSince(states, events, b, i, g);
      }
    }
  }

  /** The active, ready session dispatches exactly while no dispatch of the node is open and
      the sequence has not run out; the dispatch takes the next number. Nobody else ever
      dispatches, and a refusal leaves the node as it was. */
  lemma ReadySessionDispatches(states: seq<Machine>, events: seq<Event>, i: nat, g: nat)
    requires IsRun(states, events) && i < |events| && events[i] == BeginDispatchEvent(g)
    ensures var before, after := states[i].node, states[i + 1].node;
      var dispatches := after.inFlight == Some(g) && after.commandSequence == before.commandSequence + 1;
      && (dispatches <==>
            && !before.closed && before.session == Some(g) && g in before.ready && g !in before.terminated
            && (forall h :: !DispatchOpen(states, events, i, h)) && before.commandSequence < MAX_UINT64)
      && (!dispatches ==> after == before)
  {
    var before := states[i].node;
    RunKeepsInv(states, events, i);
    assert Enabled(states[i], events[i]) && states[i + 1] == Step(states[i], events[i]);
    SequencesFit(states, events, i);
    forall h: nat ensures before.inFlight == Some(h) <==> DispatchOpen(states, events, i, h) {
      InFlightIsOpenDispatch(states, events, i, h);
    }
    hide IsRun, DispatchOpen;
    assert (forall h :: !DispatchOpen(states, events, i, h)) <==> before.inFlight.None?;
  }

  /** Sequence numbers and generations stay within a uint64. */
  lemma {:induction false} SequencesFit(states: seq<Machine>, events: seq<Event>, i: nat)
    requires IsRun(states, events) && i < |states|
    ensures states[i].node.commandSequence <= MAX_UINT64 && states[i].node.generations <= MAX_UINT64
  {
    if i > 0 {
      SequencesFit(states, events, i - 1);
      assert Enabled(states[i - 1], events[i - 1]) && states[i] == Step(states[i - 1], events[i - 1]);
    }
  }

  /** Some session's dispatch was open at some moment from state c up to state k. */
  ghost predicate DispatchOpenDuring(states: seq<Machine>, events: seq<Event>, c: nat, k: nat)
    requires |states| == |events| + 1 && c <= k < |states|
  {
    exists i: nat, g: nat :: c <= i <= k && DispatchOpen(states, events, i, g)
  }

  ghost predicate InFlightDuring(states: seq<Machine>, c: nat, k: nat)
    requires c <= k < |states|
  {
    exists i :: c <= i <= k && states[i].node.inFlight.Some?
  }

  lemma InFlightDuringIsOpenDuring(states: seq<Machine>, events: seq<Event>, c: nat, k: nat)
    requires IsRun(states, events) && c <= k < |states|
    ensures InFlightDuring(states, c, k) <==> DispatchOpenDuring(states, events, c, k)
  {
    if InFlightDuring(states, c, k) {
      var i :| c <= i <= k && states[i].node.inFlight.Some?;
      InFlightIsOpenDispatch(states, events, i, states[i].node.inFlight.value);
    }
    if DispatchOpenDuring(states, events, c, k) {
      var i: nat, g: nat :| c <= i <= k && DispatchOpen(states, events, i, g);
      InFlightIsOpenDispatch(states, events, i, g);
      assert states[i].node.inFlight.Some?;
    }
  }

  lemma StepCountsDispatches(m: Machine, e: Event)
    requires Enabled(m, e)
    ensures m.node.commandSequence <= Step(m, e).node.commandSequence
    ensures m.node.commandSequence < Step(m, e).node.commandSequence ==> Step(m, e).node.inFlight.Some?
    ensures m.node.inFlight.None? && Step(m, e).node.inFlight.Some? ==>
      m.node.commandSequence < Step(m, e).node.commandSequence
  {
  }

  lemma {:induction false} SequenceWitnessesDispatch(states: seq<Machine>, events: seq<Event>, c: nat, k: nat)
    requires IsRun(states, events) && c <= k < |states|
    ensures states[c].node.commandSequence <= states[k].node.commandSequence
    ensures states[c].node.commandSequence < states[k].node.commandSequence ==> InFlightDuring(states, c, k)
    ensures InFlightDuring(states, c, k) ==>
      || states[c].node.inFlight.Some?
      || states[c].node.commandSequence < states[k].node.commandSequence
  {
    if c < k {
      SequenceWitnessesDispatch(states, events, c, k - 1);
      StepCountsDispatches(states[k - 1], events[k - 1]);
      var before, after := states[k - 1].node, states[k].node;
      assert InFlightDuring(states, c, k) ==> InFlightDuring(states, c, k - 1) || after.inFlight.Some?;
      assert before.inFlight.Some? ==> InFlightDuring(states, c, k - 1);
    }
  }

  /** The saved sequence number and flag decide exactly whether any dispatch was
      open at any moment of the capture interval. */
  lemma CaptureDecidesOverlap(states: seq<Machine>, events: seq<Event>, c: nat, k: nat)
    requires CaptureSpans(states, events, c, k)
    ensures CaptureUndisturbed(states[k].node) <==> !DispatchOpenDuring(states, events, c, k)
  {
    InFlightDuringIsOpenDuring(states, events, c, k);
    SequenceWitnessesDispatch(states, events, c, k);
    RunKeepsInv(states, events, c + 1);
    assert Enabled(states[c], events[c]) && states[c + 1] == Step(states[c], events[c]);
    assert states[k].node.capture ==
      Some(Capture(events[c].g, states[c].node.commandSequence, states[c].node.inFlight.Some?));
  }

  /** The event that began the capture registered in state k. */
  lemma {:induction false} CaptureHasStart(states: seq<Machine>, events: seq<Event>, k: nat) returns (c: nat)
    requires IsRun(states, events) && k < |states| && states[k].node.capture.Some?
    ensures CaptureSpans(states, events, c, k)
    ensures events[c].g == states[k].node.capture.value.actor
  {
    var before, e := states[k - 1], events[k - 1];
    assert Enabled(before, e) && states[k] == Step(before, e);
    if e.BeginCaptureEvent? && BeginCapture(before.node, e.g).verdict.Accepted? {
      c := k - 1;
    } else {
      assert before.node.capture == states[k].node.capture;
      c := CaptureHasStart(states, events, k - 1);
    }
  }

  /** While a session is allowed to project, event c began its capture, event j was
      its accepted mayProject, and nothing was in flight from c until now. */
  lemma {:induction false} AllowedHasCleanCapture(states: seq<Machine>, events: seq<Event>, k: nat)
    returns (c: nat, j: nat)
    requires IsRun(states, events) && k < |states| && HeldAt(states[k], Allowed)
    ensures c < j < k && CaptureSpans(states, events, c, j) && events[j] == MayProjectEvent
    ensures states[k].hold == Some(Hold(events[c].g, Allowed))
    ensures !InFlightDuring(states, c, k)
  {
    var before, e := states[k - 1], events[k - 1];
    assert Enabled(before, e) && states[k] == Step(before, e);
    if HeldAt(before, Allowed) {
      c, j := AllowedHasCleanCapture(states, events, k - 1);
    } else {
      j := k - 1;
      c := CaptureHasStart(states, events, j);
      CaptureDecidesOverlap(states, events, c, j);
      InFlightDuringIsOpenDuring(states, events, c, j);
    }
    assert before.node.inFlight.None? && states[k].node.inFlight.None?;
  }

  /** The durable commit of a snapshot: its session is newer than every projected
      one, and no command dispatch of the node was open at any moment from the
      session's capture to the commit. */
  lemma CommittedSnapshotSawNoDispatch(states: seq<Machine>, events: seq<Event>, k: nat) returns (c: nat, j: nat)
    requires IsRun(states, events) && k < |events| && events[k].CommitSnapshot?
    ensures c < j < k && CaptureSpans(states, events, c, j) && events[j] == MayProjectEvent
    ensures states[k].hold == Some(Hold(events[c].g, Allowed)) && events[c].g > states[k].node.projected
    ensures !DispatchOpenDuring(states, events, c, k)
  {
    RunKeepsInv(states, events, k);
    assert Enabled(states[k], events[k]);
    c, j := AllowedHasCleanCapture(states, events, k);
    InFlightDuringIsOpenDuring(states, events, c, k);
  }

  // ------------------------------------------------ handshake before dispatch

  lemma {:induction false} RecordedHasCommit(states: seq<Machine>, events: seq<Event>, k: nat) returns (i: nat)
    requires IsRun(states, events) && k < |states| && (HeldAt(states[k], Committed) || HeldAt(states[k], Recorded))
    ensures i < k && events[i] == CommitSnapshot(true) && states[i].hold == Some(Hold(states[k].hold.value.g, Allowed))
  {
    var before, e := states[k - 1], events[k - 1];
    assert Enabled(before, e) && states[k] == Step(before, e);
    if HeldAt(before, Allowed) {
      i := k - 1;
    } else {
      i := RecordedHasCommit(states, events, k - 1);
    }
  }

  /** Only an activation makes a session current. */
  lemma OnlyActivationMakesSession(before: Machine, e: Event)
    requires Enabled(before, e) && Step(before, e).node.session.Some?
    requires Step(before, e).node.session != before.node.session
    ensures e == ActivateEvent && ActsWithAuthority(before, ActivateEvent, Step(before, e).node.session.value)
  {
  }

  lemma {:induction false} SessionHasActivation(states: seq<Machine>, events: seq<Event>, k: nat) returns (i: nat)
    requires IsRun(states, events) && k < |states| && states[k].node.session.Some?
    ensures i < k && events[i] == ActivateEvent && ActsWithAuthority(states[i], ActivateEvent, states[k].node.session.value)
  {
    assert states[0].node.session.None?;
    var before, e := states[k - 1], events[k - 1];
    assert Enabled(before, e) && states[k] == Step(before, e);
    hide Step, Enabled, ActsWithAuthority;
    if states[k].node.session != before.node.session {
      OnlyActivationMakesSession(before, e);
      i := k - 1;
    } else {
      i := SessionHasActivation(states, events, k - 1);
    }
  }

  lemma {:induction false} ReadyHasEvent(states: seq<Machine>, events: seq<Event>, k: nat, g: nat) returns (i: nat)
    requires IsRun(states, events) && k < |states| && g in states[k].node.ready
    ensures i < k && events[i] == MarkReadyEvent(g) && MarkReady(states[i].node, g).verdict.Accepted?
  {
    var before, e := states[k - 1], events[k - 1];
    assert Enabled(before, e) && states[k] == Step(before, e);
    if g in before.node.ready {
      i := ReadyHasEvent(states, events, k - 1, g);
    } else {
      i := k - 1;
    }
  }

  lemma TerminationLasts(m: Machine, e: Event, g: nat)
    requires Enabled(m, e) && (g in m.node.terminated || e == TerminateEvent(g))
    ensures g in Step(m, e).node.terminated
  {
  }

  lemma {:induction false} TerminatedStays(states: seq<Machine>, events: seq<Event>, i: nat, k: nat, g: nat)
    requires IsRun(states, events) && i < k < |states| && events[i] == TerminateEvent(g)
    ensures g in states[k].node.terminated
  {
    hide Step, Enabled;
    assert Enabled(states[k - 1], events[k - 1]) && states[k] == Step(states[k - 1], events[k - 1]);
    if i < k - 1 {
      TerminatedStays(states, events, i, k - 1, g);
    }
    TerminationLasts(states[k - 1], events[k - 1], g);
  }

  /** A session dispatches only after its own snapshot was durably committed, it was
      activated and its snapshot was acknowledged, in that order, and before it ends. */
  lemma DispatchFollowsHandshake(states: seq<Machine>, events: seq<Event>, k: nat, g: nat)
    returns (commit: nat, activation: nat, ready: nat)
    requires IsRun(states, events) && k < |events|
    requires events[k] == BeginDispatchEvent(g) && BeginDispatch(states[k].node, g).verdict.Accepted?
    ensures commit < activation < ready < k
    ensures events[commit] == CommitSnapshot(true) && states[commit].hold == Some(Hold(g, Allowed))
    ensures ActsWithAuthority(states[activation], events[activation], g) && events[activation].ActivateEvent?
    ensures events[ready] == MarkReadyEvent(g) && MarkReady(states[ready].node, g).verdict.Accepted?
    ensures forall i :: 0 <= i < k ==> events[i] != TerminateEvent(g)
  {
    ready := ReadyHasEvent(states, events, k, g);
    activation := SessionHasActivation(states, events, ready);
    commit := RecordedHasCommit(states, events, activation);
    forall i | 0 <= i < k && events[i] == TerminateEvent(g)
      ensures false
    {
      TerminatedStays(states, events, i, k, g);
    }
  }

  /** From the moment a disconnect is queued until its own commit returns, it stays
      pending and no capture of the node begins. */
  lemma {:induction false} PendingDisconnectRefusesCaptures(states: seq<Machine>, events: seq<Event>, i: nat, k: nat, g: nat)
    requires IsRun(states, events) && i <= k < |states| && states[i].node.disconnect == Some(g)
    requires forall x :: i <= x < k ==> !(events[x].FinishDisconnectEvent? && events[x].g == g)
    ensures states[k].node.disconnect == Some(g)
    ensures forall h :: !BeginCapture(states[k].node, h).verdict.Accepted?
  {
    if i < k {
      PendingDisconnectRefusesCaptures(states, events, i, k - 1, g);
      assert Enabled(states[k - 1], events[k - 1]) && states[k] == Step(states[k - 1], events[k - 1]);
    }
  }

  // -------------------------------------------------------- answers over a run

  ghost predicate ClosedBefore(events: seq<Event>, i: nat) {
    exists k :: 0 <= k < i && k < |events| && events[k].CloseEvent?
  }

  /** The broker is closed exactly since its first Close; then nothing is captured, in
      flight or kept for an observer. */
  lemma {:induction false} ClosedSinceClose(states: seq<Machine>, events: seq<Event>, i: nat)
    requires IsRun(states, events) && i < |states|
    ensures states[i].node.closed <==> ClosedBefore(events, i)
    ensures states[i].node.closed ==>
      states[i].node.capture.None? && states[i].node.inFlight.None? && states[i].node.offline.kept.None?
  {
    hide Step, Enabled, Inv;
    if i > 0 {
      ClosedSinceClose(states, events, i - 1);
      RunKeepsInv(states, events, i - 1);
      assert Enabled(states[i - 1], events[i - 1]) && states[i] == Step(states[i - 1], events[i - 1]);
      StepKeepsClosed(states[i - 1], events[i - 1]);
    }
  }

  lemma StepKeepsClosed(m: Machine, e: Event)
    requires Inv(m) && Enabled(m, e) && (m.node.closed ==> m.node.offline.kept.None?)
    ensures Step(m, e).node.closed <==> m.node.closed || e.CloseEvent?
    ensures var s := Step(m, e).node; s.closed ==> s.capture.None? && s.inFlight.None? && s.offline.kept.None?
  {
  }

  /** An allocation hands out the next generation exactly while the broker is open and the
      counter has not run out. */
  lemma AllocationAnswers(states: seq<Machine>, events: seq<Event>, i: nat)
    requires IsRun(states, events) && i < |events| && events[i].AllocateEvent?
    ensures var before, after := states[i].node, states[i + 1].node;
      after == before.(generations :=
        if ClosedBefore(events, i) || before.generations == MAX_UINT64 then before.generations else before.generations + 1)
  {
    ClosedSinceClose(states, events, i);
    assert Enabled(states[i], events[i]) && states[i + 1] == Step(states[i], events[i]);
  }

  /** A capture begins exactly while the broker is open, no disconnect is pending, and the
      session is newer than every projected one and than the session that captures now. It
      remembers the sequence number and whether a dispatch is open. */
  lemma CaptureAnswers(states: seq<Machine>, events: seq<Event>, i: nat, g: nat)
    requires IsRun(states, events) && i < |events| && events[i] == BeginCaptureEvent(g)
    ensures var before, after := states[i].node, states[i + 1].node;
      var begins := && !ClosedBefore(events, i) && before.disconnect.None? && before.projected < g
                    && (before.capture.Some? ==> before.capture.value.actor < g);
      && (begins ==>
            exists open: bool :: after == before.(capture := Some(Capture(g, before.commandSequence, open))) &&
              (open <==> exists h :: DispatchOpen(states, events, i, h)))
      && (!begins ==> after == before)
  {
    ClosedSinceClose(states, events, i);
    assert Enabled(states[i], events[i]) && states[i + 1] == Step(states[i], events[i]);
    forall h: nat ensures states[i].node.inFlight == Some(h) <==> DispatchOpen(states, events, i, h) {
      InFlightIsOpenDispatch(states, events, i, h);
    }
    var open := states[i].node.inFlight.Some?;
    hide IsRun, DispatchOpen, ClosedBefore;
    assert open ==> DispatchOpen(states, events, i, states[i].node.inFlight.value);
  }

  /** A projection is allowed exactly to the session of the registered capture, while the
      broker is open, if it is newer than every projected one and no dispatch was open since
      the capture began, at event c. A refusal gives the lifecycle lock back. */
  lemma ProjectionAnswers(states: seq<Machine>, events: seq<Event>, i: nat)
    requires IsRun(states, events) && i < |events| && events[i].MayProjectEvent?
    ensures var before, after := states[i], states[i + 1];
      && before.hold.Some? && after.node == before.node
      && (after.hold == Some(Hold(before.hold.value.g, Allowed)) || after.hold.None?)
      && (after.hold.Some? ==>
            exists c: nat :: c < i && events[c] == BeginCaptureEvent(before.hold.value.g) &&
              CaptureSpans(states, events, c, i) && !DispatchOpenDuring(states, events, c, i))
      && (after.hold.None? ==>
            || ClosedBefore(events, i) || before.node.capture.None? || before.node.capture.value.actor != before.hold.value.g
            || before.hold.value.g <= before.node.projected
            || exists c: nat :: CaptureSpans(states, events, c, i) && DispatchOpenDuring(states, events, c, i))
  {
    ClosedSinceClose(states, events, i);
    assert Enabled(states[i], events[i]) && states[i + 1] == Step(states[i], events[i]);
    if states[i].node.capture.Some? {
      var c := CaptureHasStart(states, events, i);
      CaptureDecidesOverlap(states, events, c, i);
      assert CaptureSpans(states, events, c, i);
    }
    hide IsRun, ClosedBefore, CaptureSpans, DispatchOpenDuring;
  }

  /** A session becomes ready exactly while it is active and was not terminated. */
  lemma ReadyAnswers(states: seq<Machine>, events: seq<Event>, i: nat, g: nat)
    requires IsRun(states, events) && i < |events| && events[i] == MarkReadyEvent(g)
    ensures var before, after := states[i].node, states[i + 1].node;
      && (!ClosedBefore(events, i) && before.session == Some(g) && before.projected == g && g !in before.terminated ==>
            after.ready == before.ready + {g} && !after.disconnectFailed && after.offline.kept.None?)
      && (ClosedBefore(events, i) || before.session != Some(g) || g in before.terminated ==> after == before)
      && after.session == before.session
  {
    ClosedSinceClose(states, events, i);
    assert Enabled(states[i], events[i]) && states[i + 1] == Step(states[i], events[i]);
  }

  /** The end of a session removes exactly that session; its disconnect is queued next, if
      disconnects are tracked. */
  lemma DeactivationAnswers(states: seq<Machine>, events: seq<Event>, i: nat, g: nat)
    requires IsRun(states, events) && i < |events| && events[i] == DeactivateEvent(g)
    ensures var before, after := states[i], states[i + 1];
      if before.node.session == Some(g) then
        && after.node.session.None?
        && after.node == before.node.(session := None, offline := after.node.offline)
        && after.hold == (if before.tracksDisconnects then Some(Hold(g, Deactivated)) else None)
      else after == before
  {
    assert Enabled(states[i], events[i]) && states[i + 1] == Step(states[i], events[i]);
  }

  /** A disconnect is pending from its queueing until its own commit returns, which says
      whether it was made durable; one queued meanwhile only records a failure. */
  lemma DisconnectAnswers(states: seq<Machine>, events: seq<Event>, i: nat)
    requires IsRun(states, events) && i < |events|
    ensures var before, after := states[i].node, states[i + 1].node;
      && (events[i].QueueDisconnect? ==>
            && states[i].hold.Some?
            && after == (if !states[i].tracksDisconnects then before
                         else if before.disconnect.Some? then before.(disconnectFailed := true)
                         else before.(disconnect := Some(states[i].hold.value.g))))
      && (events[i].FinishDisconnectEvent? ==>
            after == (if before.disconnect == Some(events[i].g) then
                        before.(disconnect := None, disconnectFailed := !events[i].ok)
                      else before))
      && (!events[i].QueueDisconnect? && !events[i].FinishDisconnectEvent? ==> after.disconnect == before.disconnect)
  {
    assert Enabled(states[i], events[i]) && states[i + 1] == Step(states[i], events[i]);
  }

  /** The holder of the lifecycle lock ends its own capture with the lock, and no other. */
  lemma CaptureEndsWithItsHold(states: seq<Machine>, events: seq<Event>, i: nat)
    requires IsRun(states, events) && i < |events|
    ensures var before, after := states[i].node, states[i + 1].node;
      var actor := if events[i].EndCaptureEvent? then Some(events[i].g)
                   else if events[i].EndCaptureAndUnlock? && states[i].hold.Some? then Some(states[i].hold.value.g)
                   else None;
      && (actor.Some? ==>
            if before.capture.Some? && before.capture.value.actor == actor.value then after == before.(capture := None)
            else after == before)
      && (actor.None? && !events[i].BeginCaptureEvent? && !events[i].CloseEvent? ==> after.capture == before.capture)
  {
    assert Enabled(states[i], events[i]) && states[i + 1] == Step(states[i], events[i]);
  }

  /** Closing drops what is under way and keeps everything else; a second close does nothing. */
  lemma CloseAnswers(states: seq<Machine>, events: seq<Event>, i: nat)
    requires IsRun(states, events) && i < |events| && events[i].CloseEvent?
    ensures var before, after := states[i].node, states[i + 1].node;
      if ClosedBefore(events, i) then after == before
      else
        && after == before.(closed := true, disconnectFailed := false, inFlight := None, capture := None, offline := after.offline)
        && after.offline.kept.None? && after.offline.made == before.offline.made
  {
    ClosedSinceClose(states, events, i);
    assert Enabled(states[i], events[i]) && states[i + 1] == Step(states[i], events[i]);
  }

  /** What each section tells its caller, for any state of the node: success exactly when
      nothing speaks against it, a closed broker before everything else, and otherwise the
      reason. A refusal changes nothing. */
  lemma RefusalsNameTheirReason(s: NodeState, g: nat)
    ensures var o := Allocate(s);
      && (o.verdict == Accepted <==> !s.closed && s.generations != MAX_UINT64)
      && (o.verdict == BrokerClosed <==> s.closed) && (o.verdict != Accepted && !s.closed ==> o.verdict == Protocol)
      && (o.verdict != Accepted ==> o.state == s)
    ensures var o := BeginCapture(s, g);
      && (o.verdict == BrokerClosed <==> s.closed)
      && (o.verdict == DisconnectCommit <==> !s.closed && s.disconnect.Some?)
      && (o.verdict == SessionReplaced <==>
            && !s.closed && s.disconnect.None?
            && (s.projected >= g || (s.capture.Some? && s.capture.value.actor >= g)))
      && (o.verdict == Accepted ==> o.state.capture.Some? && o.state.capture.value.actor == g)
      && o.verdict !in {Protocol, Terminated} && (o.verdict != Accepted ==> o.state == s)
    ensures var o := RecordProjection(s, g);
      && o.verdict == MayProject(s, g)
      && (o.verdict == BrokerClosed <==> s.closed) && o.verdict in {Accepted, BrokerClosed, SessionReplaced}
      && (o.verdict == Accepted <==> !s.closed && s.projected < g && CaptureUndisturbed(s) && s.capture.value.actor == g)
      && o.state == (if o.verdict == Accepted then s.(projected := g) else s)
    ensures var o := Activate(s, g);
      && (o.verdict == BrokerClosed <==> s.closed) && o.verdict in {Accepted, BrokerClosed, SessionReplaced}
      && (o.verdict == Accepted <==> !s.closed && s.projected == g > 0)
      && o.state == (if o.verdict == Accepted then s.(session := Some(g)) else s)
  {
  }

  /** The same for the sections of a session that is or is not the projected one. */
  lemma SessionRefusalsNameTheirReason(s: NodeState, g: nat)
    ensures var current := !s.closed && s.session == Some(g) && s.projected == g;
      var o := MarkReady(s, g);
      && (o.verdict == Accepted <==> current && g !in s.terminated)
      && (o.verdict == Terminated <==> current && g in s.terminated)
      && (o.verdict == SessionReplaced <==> !current)
      && (o.verdict != Accepted ==> o.state == s)
    ensures var current := !s.closed && s.session == Some(g) && s.projected == g && g in s.ready && g !in s.terminated;
      var o := BeginDispatch(s, g);
      && (o.verdict == Accepted <==> current && s.inFlight.None? && s.commandSequence != MAX_UINT64)
      && (o.verdict == SessionReplaced <==> !current)
      && o.verdict in {Accepted, SessionReplaced, Protocol}
      && (o.verdict != Accepted ==> o.state == s)
  {
  }

  // ------------------------------------------------------- offline observers

  ghost predicate OfflineInv(o: OfflineChanges) {
    && (o.kept.Some? ==> o.kept.value < o.made && o.kept.value !in o.cancelled)
    && forall c :: c in o.cancelled ==> c < o.made
  }

  /** The step removes the session and puts a new context in the place of context c. */
  predicate Replaces(m: Machine, e: Event, c: nat) {
    && e.DeactivateEvent? && m.node.session == Some(e.g)
    && !m.node.closed && m.node.offline.kept == Some(c)
  }

  ghost predicate ReplacedBefore(states: seq<Machine>, events: seq<Event>, c: nat, k: nat)
    requires |states| == |events| + 1 && k < |states|
  {
    exists i :: 0 <= i < k && Replaces(states[i], events[i], c)
  }

  /** What one step does to a context that was made before it. */
  lemma StepMovesContext(m: Machine, e: Event, c: nat)
    requires Enabled(m, e) && OfflineInv(m.node.offline)
    ensures var o, p := m.node.offline, Step(m, e).node.offline;
      && OfflineInv(p) && o.made <= p.made
      && (c < o.made && p.kept == Some(c) ==> o.kept == Some(c) && !Replaces(m, e, c))
      && (c in p.cancelled <==> c in o.cancelled || (o.kept == Some(c) && p.kept != Some(c) && !Replaces(m, e, c)))
      && (Replaces(m, e, c) ==> c < o.made && p.kept != Some(c))
      && (o.made <= c < p.made ==> p.kept == Some(c))
  {
  }

  /** A context made for an observer is still kept, was cancelled, or was replaced: always
      exactly one of the three. */
  lemma {:induction false} ContextFate(states: seq<Machine>, events: seq<Event>, k: nat, c: nat)
    requires IsRun(states, events) && k < |states|
    ensures var o := states[k].node.offline;
      && OfflineInv(o)
      && (ReplacedBefore(states, events, c, k) ==> c < o.made && o.kept != Some(c) && c !in o.cancelled)
      && (c < o.made ==> o.kept == Some(c) || c in o.cancelled || ReplacedBefore(states, events, c, k))
  {
    if k > 0 {
      ContextFate(states, events, k - 1, c);
      assert Enabled(states[k - 1], events[k - 1]) && states[k] == Step(states[k - 1], events[k - 1]);
      hide Step, Enabled, Replaces, OfflineInv;
      StepMovesContext(states[k - 1], events[k - 1], c);
      ReplacedOneMore(states, events, c, k);
    }
  }

  lemma ReplacedOneMore(states: seq<Machine>, events: seq<Event>, c: nat, k: nat)
    requires |states| == |events| + 1 && 0 < k < |states|
    ensures ReplacedBefore(states, events, c, k) <==>
      ReplacedBefore(states, events, c, k - 1) || Replaces(states[k - 1], events[k - 1], c)
  {
    hide Replaces;
  }

  /** When a node becomes ready, or the broker closes, an observer of the node's absence is
      woken exactly if no session ended between its observation and now that replaced its
      context. */
  lemma ReadinessWakesObserver(states: seq<Machine>, events: seq<Event>, k: nat, c: nat)
    requires IsRun(states, events) && k < |events| && c < states[k].node.offline.made
    requires (events[k].CloseEvent? && !states[k].node.closed) ||
      (events[k].MarkReadyEvent? && MarkReady(states[k].node, events[k].g).verdict.Accepted?)
    ensures c in states[k + 1].node.offline.cancelled <==> !ReplacedBefore(states, events, c, k)
  {
    ContextFate(states, events, k, c);
    assert Enabled(states[k], events[k]) && states[k + 1] == Step(states[k], events[k]);
    hide IsRun, ReplacedBefore, OfflineInv;
  }

  /** A run that ends in a given state. */
  ghost predicate EndsIn(states: seq<Machine>, events: seq<Event>, last: Machine) {
    IsRun(states, events) && states[|events|] == last
  }

  lemma Extend(states: seq<Machine>, events: seq<Event>, last: Machine, e: Event)
    requires EndsIn(states, events, last) && Enabled(last, e)
    ensures EndsIn(states + [Step(last, e)], events + [e], Step(last, e))
  {
  }

  ghost predicate Reachable(m: Machine) {
    exists states, events :: EndsIn(states, events, m)
  }

  lemma Reach(m: Machine, e: Event) returns (next: Machine)
    requires Reachable(m) && Enabled(m, e)
    ensures next == Step(m, e) && Reachable(next)
  {
    var states, events :| EndsIn(states, events, m);
    Extend(states, events, m, e);
    next := Step(m, e);
  }

  /** Session 1's snapshot is durable and it is about to be projected. */
  const FIRST_COMMITTED :=
    Machine(FRESH.(capture := Some(Capture(1, 0, false)), generations := 1), Some(Hold(1, Committed)), true)

  /** Session 1 is active, session 2 has begun its capture. */
  const OPEN_CAPTURE :=
    Machine(
      FRESH.(session := Some(1), capture := Some(Capture(2, 0, false)), generations := 2, projected := 1),
      None, true)

  lemma FirstCommittedReachable()
    ensures Reachable(FIRST_COMMITTED)
  {
    var m := Machine(FRESH, None, true);
    assert EndsIn([m], [], m);
    m := Reach(m, AllocateEvent);
    m := Reach(m, BeginCaptureEvent(1));
    m := Reach(m, LockForSnapshot(1));
    m := Reach(m, MayProjectEvent);
    m := Reach(m, CommitSnapshot(true));
  }

  lemma OpenCaptureReachable()
    ensures Reachable(OPEN_CAPTURE)
  {
    FirstCommittedReachable();
    var m := Reach(FIRST_COMMITTED, RecordProjectionEvent);
    m := Reach(m, ActivateEvent);
    m := Reach(m, EndCaptureAndUnlock);
    m := Reach(m, AllocateEvent);
    m := Reach(m, BeginCaptureEvent(2));
  }

  /** A pending disconnect projection refuses new captures, but a capture that began
      before it still projects: here session 2 is recorded while the disconnect of
      session 1 is pending, and a third session could not begin its capture. */
  lemma OpenCaptureIgnoresPendingDisconnect() returns (m: Machine)
    ensures Reachable(m)
    ensures m.node.disconnect == Some(1) && m.node.projected == 2 && HeldAt(m, Recorded)
    ensures !BeginCapture(m.node, 3).verdict.Accepted?
  {
    OpenCaptureReachable();
    hide Reachable;
    m := Reach(OPEN_CAPTURE, DeactivateEvent(1));
    m := Reach(m, QueueDisconnect);
    m := Reach(m, LockForSnapshot(2));
    m := Reach(m, MayProjectEvent);
    m := Reach(m, CommitSnapshot(true));
    m := Reach(m, RecordProjectionEvent);
  }

  /** Whatever session 1 was, the next one can complete its handshake. */
  lemma NextSessionActivates(before: Machine, g: nat) returns (m: Machine)
    requires Reachable(before) && before.hold.None? && !before.node.closed
    requires before.node.session.None? && before.node.capture.None?
    requires before.node.inFlight.None? && before.node.disconnect.None?
    requires g == before.node.generations + 1 <= MAX_UINT64 && before.node.projected < g
    ensures Reachable(m)
    ensures m == before.(node := before.node.(generations := g, projected := g, session := Some(g)))
  {
    hide Reachable;
    m := Reach(before, AllocateEvent);
    m := Reach(m, BeginCaptureEvent(g));
    m := Reach(m, LockForSnapshot(g));
    m := Reach(m, MayProjectEvent);
    m := Reach(m, CommitSnapshot(true));
    m := Reach(m, RecordProjectionEvent);
    m := Reach(m, ActivateEvent);
    m := Reach(m, EndCaptureAndUnlock);
  }

  /** The exception is real: a node is observed while offline, a session comes and goes
      before it is ready, the next one becomes ready, and the first observer's context is
      neither kept nor cancelled. */
  lemma ReplacedObserverSleepsOn() returns (m: Machine)
    ensures Reachable(m) && m.node.session == Some(2) && IsReady(m.node, 2)
    ensures m.node.offline == OfflineChanges(None, 2, {1})
  {
    m := Machine(FRESH, None, false);
    assert EndsIn([m], [], m);
    m := Reach(m, ReadinessEvent);
    assert m.node.offline == OfflineChanges(Some(0), 1, {});
    m := NextSessionActivates(m, 1);
    m := Reach(m, DeactivateEvent(1));
    assert m.node.offline == OfflineChanges(Some(1), 2, {});
    m := NextSessionActivates(m, 2);
    m := Reach(m, MarkReadyEvent(2));
  }

  /** A session that completes its handshake dispatches, ends the dispatch and dispatches
      again, each time with the next sequence number. */
  lemma SessionDispatchesAgain() returns (first: Machine, second: Machine)
    ensures Reachable(first) && first.node.inFlight == Some(1) && first.node.commandSequence == 1
    ensures Reachable(second) && second.node.inFlight == Some(1) && second.node.commandSequence == 2
  {
    var m := Machine(FRESH, None, false);
    assert EndsIn([m], [], m);
    m := NextSessionActivates(m, 1);
    m := Reach(m, MarkReadyEvent(1));
    first := Reach(m, BeginDispatchEvent(1));
    m := Reach(first, EndDispatchEvent(1));
    assert m.node.inFlight.None?;
    second := Reach(m, BeginDispatchEvent(1));
  }
}
