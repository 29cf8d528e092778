/** One session actor's pending command and its one-slot result channel.

    The caller that sends a command, the reader loop that handles updates and
    whoever terminates the session all touch `pending` under `stateMu`, and send on
    the result channel after releasing it (internal/app/agent_broker.go). */
module CommandResults {
  import opened Common

  type CommandID = string
  type ExecutionID = string

  /** The token stands for the identity of one pendingAgentCommand object. */
  datatype Pending = Pending(token: nat, command: CommandID, execution: ExecutionID, acked: bool)

  datatype ExecutionState =
    | Reserved | Preparing | Running | Cleaning | Released | Failed | CleanupFailed | Quarantined

  datatype Update = Update(command: CommandID, execution: ExecutionID, state: ExecutionState)

  /** What `stateMu` guards. */
  datatype Slot = Slot(terminated: bool, pending: Option<Pending>, known: map<CommandID, ExecutionID>)

  // ---------------------------------------------------- sections under stateMu

  datatype InstallVerdict = Installed | SessionOver | Occupied

  function InstallVerdictOf(s: Slot): InstallVerdict {
    if s.terminated then SessionOver else if s.pending.Some? then Occupied else Installed
  }

  function Install(s: Slot, p: Pending): Slot {
    if InstallVerdictOf(s).Installed? then s.(pending := Some(p)) else s
  }

  predicate Holds(s: Slot, token: nat) {
    s.pending.Some? && s.pending.value.token == token
  }

  function Clear(s: Slot, token: nat): Slot {
    if Holds(s, token) then s.(pending := None) else s
  }

  predicate AcceptsAck(s: Slot, command: CommandID) {
    s.pending.Some? && s.pending.value.command == command && !s.pending.value.acked
  }

  function Ack(s: Slot, command: CommandID): Slot {
    if AcceptsAck(s, command) then s.(pending := Some(s.pending.value.(acked := true))) else s
  }

  predicate IsInitial(s: Slot, u: Update) {
    s.pending.Some? && s.pending.value.command == u.command
  }

  predicate AcceptsUpdate(s: Slot, u: Update) {
    if IsInitial(s, u) then s.pending.value.acked && s.pending.value.execution == u.execution
    else u.command in s.known && s.known[u.command] == u.execution
  }

  /** A finished execution takes all its commands with it; any other update is remembered. */
  function Remember(known: map<CommandID, ExecutionID>, u: Update): map<CommandID, ExecutionID> {
    if u.state.Released? || u.state.Failed? then
      map c | c in known && known[c] != u.execution :: known[c]
    else known[u.command := u.execution]
  }

  predicate CanFinish(s: Slot, initial: Option<nat>) {
    initial.Some? ==> Holds(s, initial.value)
  }

  function Finish(s: Slot, initial: Option<nat>, u: Update): Slot {
    if !CanFinish(s, initial) then s
    else Slot(s.terminated, if initial.Some? then None else s.pending, Remember(s.known, u))
  }

  function Take(s: Slot): Slot {
    s.(terminated := true, pending := None)
  }

  /** The last entry of a snapshot for this command names this execution. */
  ghost predicate LastEntry(snapshot: seq<(CommandID, ExecutionID)>, c: CommandID, x: ExecutionID) {
    exists i :: 0 <= i < |snapshot| && snapshot[i] == (c, x) && forall j :: i < j < |snapshot| ==> snapshot[j].0 != c
  }

  ghost predicate Lists(known: map<CommandID, ExecutionID>, snapshot: seq<(CommandID, ExecutionID)>) {
    forall c, x :: (c in known && known[c] == x) <==> LastEntry(snapshot, c, x)
  }

  lemma LongerSnapshot(known: map<CommandID, ExecutionID>, snapshot: seq<(CommandID, ExecutionID)>, n: nat)
    requires n < |snapshot| && Lists(known, snapshot[..n])
    ensures Lists(known[snapshot[n].0 := snapshot[n].1], snapshot[..n + 1])
  {
    var shorter, longer := snapshot[..n], snapshot[..n + 1];
    assert longer == shorter + [snapshot[n]];
    forall c, x
      ensures LastEntry(longer, c, x) <==> (if snapshot[n].0 == c then snapshot[n].1 == x else LastEntry(shorter, c, x))
    {
      if snapshot[n] == (c, x) {
        assert longer[n] == (c, x);
      } else if snapshot[n].0 != c && LastEntry(shorter, c, x) {
        var i :| 0 <= i < |shorter| && shorter[i] == (c, x) && forall j :: i < j < |shorter| ==> shorter[j].0 != c;
        assert longer[i] == (c, x);
      }
    }
  }

  // -------------------------------------------------------------------- class

  class SessionActor {
    var terminated: bool
    var pending: Option<Pending>
    var knownCommands: map<CommandID, ExecutionID>

    ghost function View(): Slot
      reads this
    {
      Slot(terminated, pending, knownCommands)
    }

    /** Commands in the activating snapshot are known from the start. */
    constructor (snapshot: seq<(CommandID, ExecutionID)>)
      ensures !terminated && pending.None?
      ensures Lists(knownCommands, snapshot)
    {
      terminated, pending := false, None;
      knownCommands := map[];
      new;
      var i := 0;
      while i < |snapshot|
        invariant 0 <= i <= |snapshot| && !terminated && pending.None?
        invariant Lists(knownCommands, snapshot[..i])
      {
        LongerSnapshot(knownCommands, snapshot, i);
        knownCommands := knownCommands[snapshot[i].0 := snapshot[i].1];
        i := i + 1;
      }
      assert snapshot[..i] == snapshot;
    }

    method InstallPending(p: Pending) returns (verdict: InstallVerdict)
      modifies this`pending
      ensures verdict == InstallVerdictOf(old(View())) && View() == Install(old(View()), p)
    {
      if terminated {
        return SessionOver;
      }
      if pending.Some? {
        return Occupied;
      }
      pending := Some(p);
      verdict := Installed;
    }

    method ClearPending(token: nat)
      modifies this`pending
      ensures View() == Clear(old(View()), token)
    {
      if pending.Some? && pending.value.token == token {
        pending := None;
      }
    }

    method HandleCommandAck(command: CommandID) returns (accepted: bool)
      modifies this`pending
      ensures accepted == AcceptsAck(old(View()), command) && View() == Ack(old(View()), command)
    {
      if pending.None? || command != pending.value.command || pending.value.acked {
        return false;
      }
      pending := Some(pending.value.(acked := true));
      accepted := true;
    }

    /** The first section of handleExecutionUpdate: whose update this is. */
    method ClassifyUpdate(u: Update) returns (accepted: bool, initial: Option<nat>)
      ensures accepted == AcceptsUpdate(View(), u)
      ensures initial == if IsInitial(View(), u) then Some(pending.value.token) else None
    {
      initial := None;
      if pending.Some? && pending.value.command == u.command {
        initial := Some(pending.value.token);
        accepted := pending.value.acked && u.execution == pending.value.execution;
      } else {
        accepted := u.command in knownCommands && u.execution == knownCommands[u.command];
      }
    }

    /** The last section: after the commit and the acknowledgement. */
    method FinishUpdate(initial: Option<nat>, u: Update) returns (finished: bool)
      modifies this
      ensures finished == CanFinish(old(View()), initial) && View() == Finish(old(View()), initial, u)
    {
      if initial.Some? && !(pending.Some? && pending.value.token == initial.value) {
        return false;
      }
      if u.state.Released? || u.state.Failed? {
        knownCommands := map c | c in knownCommands && knownCommands[c] != u.execution :: knownCommands[c];
      } else {
        knownCommands := knownCommands[u.command := u.execution];
      }
      if initial.Some? {
        pending := None;
      }
      finished := true;
    }

    method TakePending() returns (taken: Option<Pending>)
      modifies this
      ensures taken == old(pending) && View() == Take(old(View()))
    {
      terminated := true;
      taken := pending;
      pending := None;
    }
  }

  // ------------------------------------------------------------------ machine

  /** The caller holding the command gate. */
  datatype Sender = Sender(token: nat, written: bool)

  datatype Stage = Committing | Acknowledging | Finishing | Sending

  /** The reader loop inside handleExecutionUpdate. */
  datatype Handler = Handler(initial: Option<nat>, update: Update, stage: Stage)

  /** The one run of `terminate`: it takes the pending command, sends, then closes `done`. */
  datatype Terminator = NotStarted | Taken(pending: Option<nat>) | Done

  /** `withdrawn` holds the commands whose caller cleared them; `answered` those whose
      first update the consumer committed; `sent` counts the sends on each channel. */
  datatype Actor = Actor(
    slot: Slot,
    sender: Option<Sender>,
    handler: Option<Handler>,
    failing: bool,
    terminator: Terminator,
    installed: set<nat>,
    written: set<nat>,
    withdrawn: set<nat>,
    answered: set<nat>,
    sent: multiset<nat>)

  datatype Event =
    | SendCommand(p: Pending)
    | Withdraw            // encoding or the command consumer failed: clearPending
    | Write               // the command reaches the connection
    | Leave               // the caller returns with a result or after `done`
    | AckArrives(command: CommandID)
    | UpdateArrives(u: Update)
    | CommitUpdate(ok: bool)
    | AcknowledgeUpdate(ok: bool)
    | FinishSection
    | DeliverResult
    | StartTerminate
    | FinishTerminate

  predicate HandlerAt(a: Actor, stage: Stage) {
    a.handler.Some? && a.handler.value.stage == stage
  }

  predicate Reading(a: Actor) {
    a.handler.None? && !a.failing
  }

  predicate Enabled(a: Actor, e: Event) {
    match e
    case SendCommand(p) => a.sender.None? && p.token !in a.installed && !p.acked
    case Withdraw => a.sender.Some? && !a.sender.value.written
    case Write => a.sender.Some? && !a.sender.value.written
    case Leave => a.sender.Some? && a.sender.value.written && (a.sent[a.sender.value.token] > 0 || a.terminator.Done?)
    case AckArrives(c) => Reading(a)
    case UpdateArrives(u) => Reading(a)
    case CommitUpdate(ok) => HandlerAt(a, Committing)
    case AcknowledgeUpdate(ok) => HandlerAt(a, Acknowledging)
    case FinishSection => HandlerAt(a, Finishing)
    case DeliverResult => HandlerAt(a, Sending) && a.handler.value.initial.Some?
    case StartTerminate => a.terminator.NotStarted?
    case FinishTerminate => a.terminator.Taken?
  }

  function Fail(a: Actor): Actor {
    a.(handler := None, failing := true)
  }

  function Step(a: Actor, e: Event): Actor
    requires Enabled(a, e)
  {
    match e
    case SendCommand(p) =>
      if InstallVerdictOf(a.slot).Installed? then
        a.(slot := Install(a.slot, p), sender := Some(Sender(p.token, false)), installed := a.installed + {p.token})
      else a
    case Withdraw =>
      var token := a.sender.value.token;
      a.(slot := Clear(a.slot, token), sender := None,
         withdrawn := if Holds(a.slot, token) then a.withdrawn + {token} else a.withdrawn)
    case Write => a.(sender := Some(a.sender.value.(written := true)), written := a.written + {a.sender.value.token})
    case Leave => a.(sender := None)
    case AckArrives(c) => if AcceptsAck(a.slot, c) then a.(slot := Ack(a.slot, c)) else Fail(a)
    case UpdateArrives(u) =>
      if !AcceptsUpdate(a.slot, u) then Fail(a)
      else
        var initial := if IsInitial(a.slot, u) then Some(a.slot.pending.value.token) else None;
        a.(handler := Some(Handler(initial, u, Committing)))
    case CommitUpdate(ok) =>
      var h := a.handler.value;
      if !ok then Fail(a)
      else
        a.(handler := Some(h.(stage := Acknowledging)),
           answered := if h.initial.Some? then a.answered + {h.initial.value} else a.answered)
    case AcknowledgeUpdate(ok) =>
      if ok then a.(handler := Some(a.handler.value.(stage := Finishing))) else Fail(a)
    case FinishSection =>
      var h := a.handler.value;
      if !CanFinish(a.slot, h.initial) then Fail(a)
      else
        a.(slot := Finish(a.slot, h.initial, h.update),
           handler := if h.initial.Some? then Some(h.(stage := Sending)) else None)
    case DeliverResult => a.(handler := None, sent := a.sent + multiset{a.handler.value.initial.value})
    case StartTerminate =>
      a.(slot := Take(a.slot),
         terminator := Taken(if a.slot.pending.Some? then Some(a.slot.pending.value.token) else None))
    case FinishTerminate =>
      a.(terminator := Done,
         sent := if a.terminator.pending.Some? then a.sent + multiset{a.terminator.pending.value} else a.sent)
  }

  predicate Initial(a: Actor) {
    && !a.slot.terminated && a.slot.pending.None?
    && a == Actor(a.slot, None, None, false, NotStarted, {}, {}, {}, {}, multiset{})
  }

  ghost predicate IsRun(states: seq<Actor>, events: seq<Event>) {
    && |states| == |events| + 1
    && Initial(states[0])
    && forall i :: 0 <= i < |events| ==> Enabled(states[i], events[i]) && states[i + 1] == Step(states[i], events[i])
  }

  // ---------------------------------------------------------------- invariant

  function One(b: bool): nat {
    if b then 1 else 0
  }

  predicate AboutToDeliver(a: Actor, token: nat) {
    HandlerAt(a, Sending) && a.handler.value.initial == Some(token)
  }

  /** The places a command's single answer can be. */
  function Copies(a: Actor, token: nat): nat {
    a.sent[token] + One(Holds(a.slot, token)) + One(AboutToDeliver(a, token)) +
    One(a.terminator == Taken(Some(token))) + One(token in a.withdrawn)
  }

  /** Who may hold the slot, and what the bookkeeping sets contain. */
  predicate Shape(a: Actor) {
    && (a.slot.terminated <==> !a.terminator.NotStarted?)
    && (a.slot.terminated ==> a.slot.pending.None?)
    && (a.slot.pending.Some? ==> a.sender.Some? && a.sender.value.token == a.slot.pending.value.token)
    && (a.sender.Some? ==> a.sender.value.token in a.installed && a.sender.value.token !in a.withdrawn)
    && (a.sender.Some? ==> (a.sender.value.written <==> a.sender.value.token in a.written))
    && a.written <= a.installed && a.written !! a.withdrawn
    && (HandlerAt(a, Sending) ==> a.handler.value.initial.Some?)
    && (a.handler.Some? && a.handler.value.initial.Some? ==> a.handler.value.initial.value in a.installed)
    && a.answered <= a.installed
  }

  /** A command answered by a committed update has its result, or it is on its way. */
  ghost predicate AnswersComing(a: Actor) {
    forall token :: token in a.answered && token !in a.withdrawn ==>
      || a.failing || a.slot.terminated || a.sent[token] > 0
      || (a.handler.Some? && a.handler.value.initial == Some(token) && !a.handler.value.stage.Committing?)
  }

  ghost predicate Conserved(a: Actor) {
    forall token :: Copies(a, token) == One(token in a.installed)
  }

  ghost predicate Inv(a: Actor) {
    Shape(a) && Conserved(a) && AnswersComing(a)
  }

  lemma StepKeepsShape(a: Actor, e: Event)
    requires Inv(a) && Enabled(a, e)
    ensures Shape(Step(a, e))
  {
    if a.sender.Some? {
      assert Copies(a, a.sender.value.token) == 1;
    }
    hide Remember, Conserved, AnswersComing;
  }

  /** A step moves a command's answer from one place to another, and makes one only by installing. */
  lemma StepMovesOneCopy(a: Actor, e: Event, token: nat)
    requires Shape(a) && Enabled(a, e) && Copies(a, token) == One(token in a.installed)
    ensures Copies(Step(a, e), token) == One(token in Step(a, e).installed)
  {
    if e.UpdateArrives? || e.CommitUpdate? || e.AcknowledgeUpdate? || e.FinishSection? || e.DeliverResult? {
      HandlerMovesOneCopy(a, e, token);
      hide Step;
    } else {
      hide AcceptsUpdate, Remember, CanFinish, Finish;
    }
  }

  lemma HandlerMovesOneCopy(a: Actor, e: Event, token: nat)
    requires Shape(a) && Enabled(a, e) && Copies(a, token) == One(token in a.installed)
    requires e.UpdateArrives? || e.CommitUpdate? || e.AcknowledgeUpdate? || e.FinishSection? || e.DeliverResult?
    ensures Copies(Step(a, e), token) == One(token in Step(a, e).installed)
  {
    hide AcceptsUpdate, Remember;
  }

  lemma StepKeepsAnswersComing(a: Actor, e: Event)
    requires Inv(a) && Enabled(a, e)
    ensures AnswersComing(Step(a, e))
  {
  }

  lemma StepKeepsInv(a: Actor, e: Event)
    requires Inv(a) && Enabled(a, e)
    ensures Inv(Step(a, e))
  {
    hide Step, Shape, AnswersComing, Copies;
    StepKeepsShape(a, e);
    StepKeepsAnswersComing(a, e);
    forall token
      ensures Copies(Step(a, e), token) == One(token in Step(a, e).installed)
    {
      StepMovesOneCopy(a, e, token);
    }
  }

  lemma {:induction false} RunKeepsInv(states: seq<Actor>, events: seq<Event>, i: nat)
    requires IsRun(states, events) && i < |states|
    ensures Inv(states[i])
  {
    if i > 0 {
      hide Step, Inv;
      RunKeepsInv(states, events, i - 1);
      StepKeepsInv(states[i - 1], events[i - 1]);
    }
  }

  // ----------------------------------------------------------------- theorems

  /** No channel ever receives a second result. */
  lemma AtMostOneResult(states: seq<Actor>, events: seq<Event>, i: nat, token: nat)
    requires IsRun(states, events) && i < |states|
    ensures states[i].sent[token] <= 1
    ensures token !in states[i].installed ==> states[i].sent[token] == 0
  {
    RunKeepsInv(states, events, i);
    assert Copies(states[i], token) == One(token in states[i].installed);
  }

  /** Every send finds its one-slot channel never used before, so no sender blocks. */
  lemma SendNeverBlocks(states: seq<Actor>, events: seq<Event>, i: nat)
    requires IsRun(states, events) && i < |events|
    ensures events[i].DeliverResult? ==> states[i].sent[states[i].handler.value.initial.value] == 0
    ensures events[i].FinishTerminate? && states[i].terminator.pending.Some? ==>
      states[i].sent[states[i].terminator.pending.value] == 0
  {
    AtMostOneResult(states, events, i + 1, 0);
    assert Enabled(states[i], events[i]) && states[i + 1] == Step(states[i], events[i]);
    if events[i].DeliverResult? {
      AtMostOneResult(states, events, i + 1, states[i].handler.value.initial.value);
    }
    if events[i].FinishTerminate? && states[i].terminator.pending.Some? {
      AtMostOneResult(states, events, i + 1, states[i].terminator.pending.value);
    }
  }

  /** The pending slot is never found occupied by the holder of the command gate. */
  lemma GateLeavesSlotFree(states: seq<Actor>, events: seq<Event>, i: nat)
    requires IsRun(states, events) && i < |events| && events[i].SendCommand?
    ensures InstallVerdictOf(states[i].slot) != Occupied
  {
    RunKeepsInv(states, events, i);
    assert Enabled(states[i], events[i]);
  }

  /** No update is being handled, and a session that failed or was terminated is over. */
  predicate Settled(a: Actor) {
    a.handler.None? && !a.terminator.Taken? && (a.failing ==> a.terminator.Done?)
  }

  /** Once the session has ended, every command ever installed has exactly one result,
      except one its own caller withdrew before writing it, which has none. */
  lemma EndedSessionAnswersAll(states: seq<Actor>, events: seq<Event>, i: nat, token: nat)
    requires IsRun(states, events) && i < |states|
    requires states[i].terminator.Done? && states[i].handler.None? && token in states[i].installed
    ensures states[i].sent[token] == if token in states[i].withdrawn then 0 else 1
    ensures token in states[i].written ==> states[i].sent[token] == 1
  {
    RunKeepsInv(states, events, i);
    assert Copies(states[i], token) == One(token in states[i].installed);
  }

  /** A command whose first update was committed has exactly one result as soon as the
      session settles, again unless its caller withdrew it before writing it. */
  lemma CommittedUpdateAnswers(states: seq<Actor>, events: seq<Event>, i: nat, token: nat)
    requires IsRun(states, events) && i < |states| && Settled(states[i]) && token in states[i].answered
    ensures states[i].sent[token] == 1 <==> token !in states[i].withdrawn
    ensures token in states[i].written ==> states[i].sent[token] == 1
  {
    RunKeepsInv(states, events, i);
    assert Copies(states[i], token) == One(token in states[i].installed);
  }

  ghost predicate EndsIn(states: seq<Actor>, events: seq<Event>, last: Actor) {
    IsRun(states, events) && states[|events|] == last
  }

  ghost predicate Reachable(a: Actor) {
    exists states, events :: EndsIn(states, events, a)
  }

  lemma Reach(a: Actor, e: Event) returns (next: Actor)
    requires Reachable(a) && Enabled(a, e)
    ensures next == Step(a, e) && Reachable(next)
  {
    var states, events :| EndsIn(states, events, a);
    next := Step(a, e);
    assert EndsIn(states + [next], events + [e], next);
  }

  /** The exception is real: an Agent that acknowledges and reports a command before it
      was written has its first update committed, the caller then withdraws the command,
      and the channel stays empty for good. The caller has already returned its own error. */
  lemma WithdrawnCommandGetsNoResult() returns (a: Actor)
    ensures Reachable(a) && Settled(a) && a.terminator.Done?
    ensures 0 in a.answered && 0 in a.withdrawn && a.sent[0] == 0
  {
    a := Actor(Slot(false, None, map[]), None, None, false, NotStarted, {}, {}, {}, {}, multiset{});
    assert EndsIn([a], [], a);
    a := Reach(a, SendCommand(Pending(0, "start", "run", false)));
    a := Reach(a, AckArrives("start"));
    a := Reach(a, UpdateArrives(Update("start", "run", Running)));
    a := Reach(a, CommitUpdate(true));
    a := WithdrawnAfterCommit(a);
  }

  lemma WithdrawnAfterCommit(before: Actor) returns (a: Actor)
    requires Reachable(before) && before.sender == Some(Sender(0, false)) && Holds(before.slot, 0)
    requires before.handler.Some? && before.handler.value.initial == Some(0) && HandlerAt(before, Acknowledging)
    requires before.sent == multiset{} && before.terminator.NotStarted? && before.answered == {0}
    ensures Reachable(a) && Settled(a) && a.terminator.Done?
    ensures 0 in a.answered && 0 in a.withdrawn && a.sent[0] == 0
  {
    a := Reach(before, Withdraw);
    a := Reach(a, AcknowledgeUpdate(true));
    a := Reach(a, FinishSection);
    a := Reach(a, StartTerminate);
    a := Reach(a, FinishTerminate);
  }

  // ------------------------------------------------------- which updates belong

  /** An update of this execution says that it was released or has failed. */
  predicate Ends(u: Update) {
    u.state.Released? || u.state.Failed?
  }

  /** The step finishes the update: it was committed and acknowledged, and the command it
      answers, if any, is still pending. */
  predicate Finishes(a: Actor, e: Event, u: Update) {
    && e.FinishSection? && a.handler.Some? && a.handler.value.update == u
    && (a.handler.value.initial.Some? ==>
          a.slot.pending.Some? && a.slot.pending.value.token == a.handler.value.initial.value)
  }

  /** No update finished in event k makes the session forget or reassign the command. */
  ghost predicate Leaves(a: Actor, e: Event, c: CommandID, x: ExecutionID) {
    forall u :: Finishes(a, e, u) ==> if Ends(u) then u.execution != x else u.command == c ==> u.execution == x
  }

  /** The command belongs to the execution: a snapshot entry, or an update finished in
      event b - 1, said so, and nothing finished since takes it back. */
  ghost predicate BelongsSince(states: seq<Actor>, events: seq<Event>, b: nat, i: nat, c: CommandID, x: ExecutionID)
    requires |states| == |events| + 1 && i < |states|
  {
    && b <= i
    && (if b == 0 then c in states[0].slot.known && states[0].slot.known[c] == x
        else exists u :: Finishes(states[b - 1], events[b - 1], u) && !Ends(u) && u.command == c && u.execution == x)
    && forall k :: b <= k < i ==> Leaves(states[k], events[k], c, x)
  }

  ghost predicate Belongs(states: seq<Actor>, events: seq<Event>, i: nat, c: CommandID, x: ExecutionID)
    requires |states| == |events| + 1 && i < |states|
  {
    exists b: nat :: BelongsSince(states, events, b, i, c, x)
  }

  lemma StepMovesKnown(a: Actor, e: Event, c: CommandID, x: ExecutionID)
    requires Enabled(a, e)
    ensures c in Step(a, e).slot.known && Step(a, e).slot.known[c] == x <==>
      || (c in a.slot.known && a.slot.known[c] == x && Leaves(a, e, c, x))
      || exists u :: Finishes(a, e, u) && !Ends(u) && u.command == c && u.execution == x
  {
    if e.FinishSection? {
      var u := a.handler.value.update;
      assert Finishes(a, e, u) <==> CanFinish(a.slot, a.handler.value.initial);
      assert forall v :: Finishes(a, e, v) ==> v == u;
    }
  }

  /** The session's table holds exactly what the finished updates and the snapshot say. */
  lemma {:induction false} KnownIsHistory(states: seq<Actor>, events: seq<Event>, i: nat, c: CommandID, x: ExecutionID)
    requires IsRun(states, events) && i < |states|
    ensures c in states[i].slot.known && states[i].slot.known[c] == x <==> Belongs(states, events, i, c, x)
  {
    hide Step, Enabled, Leaves, Finishes, Ends;
    if i == 0 {
      assert c in states[0].slot.known && states[0].slot.known[c] == x ==> BelongsSince(states, events, 0, 0, c, x);
    } else {
      var a, e := states[i - 1], events[i - 1];
      KnownIsHistory(states, events, i - 1, c, x);
      assert Enabled(a, e) && states[i] == Step(a, e);
      StepMovesKnown(a, e, c, x);
      if Belongs(states, events, i, c, x) {
        var b: nat :| BelongsSince(states, events, b, i, c, x);
        if b < i { assert BelongsSince(states, events, b, i - 1, c, x); }
      }
      if Belongs(states, events, i - 1, c, x) && Leaves(a, e, c, x) {
        var b: nat :| BelongsSince(states, events, b, i - 1, c, x);
        assert BelongsSince(states, events, b, i, c, x);
      }
      if u :| Finishes(a, e, u) && !Ends(u) && u.command == c && u.execution == x {
        assert BelongsSince(states, events, i, i, c, x);
      }
    }
  }

  /** An acknowledgement by this identifier arrived while the command was pending. */
  ghost predicate AckedBefore(states: seq<Actor>, events: seq<Event>, i: nat, token: nat, c: CommandID)
    requires |states| == |events| + 1 && i < |states|
  {
    exists k :: 0 <= k < i && events[k] == AckArrives(c) && Holds(states[k].slot, token)
  }

  lemma {:induction false} HeldWasInstalled(states: seq<Actor>, events: seq<Event>, k: nat, i: nat, token: nat)
    requires IsRun(states, events) && k <= i < |states| && Holds(states[k].slot, token)
    ensures token in states[i].installed
    decreases i
  {
    RunKeepsInv(states, events, i);
    if k < i {
      HeldWasInstalled(states, events, k, i - 1, token);
      assert Enabled(states[i - 1], events[i - 1]) && states[i] == Step(states[i - 1], events[i - 1]);
    }
  }

  lemma StepMovesPending(a: Actor, e: Event, token: nat)
    requires Enabled(a, e) && Holds(Step(a, e).slot, token)
    ensures Holds(a.slot, token) ==>
      var p, q := a.slot.pending.value, Step(a, e).slot.pending.value;
      q == p.(acked := p.acked || e == AckArrives(p.command))
    ensures !Holds(a.slot, token) ==> e.SendCommand? && e.p == Step(a, e).slot.pending.value && token !in a.installed && !e.p.acked
  {
    hide Remember;
  }

  lemma {:induction false} AckedIsHistory(states: seq<Actor>, events: seq<Event>, i: nat)
    requires IsRun(states, events) && i < |states| && states[i].slot.pending.Some?
    ensures var p := states[i].slot.pending.value;
      p.acked <==> AckedBefore(states, events, i, p.token, p.command)
  {
    var p := states[i].slot.pending.value;
    assert i > 0 && Enabled(states[i - 1], events[i - 1]) && states[i] == Step(states[i - 1], events[i - 1]);
    hide Step, Enabled;
    StepMovesPending(states[i - 1], events[i - 1], p.token);
    if Holds(states[i - 1].slot, p.token) {
      AckedIsHistory(states, events, i - 1);
    } else if AckedBefore(states, events, i, p.token, p.command) {
      var k :| 0 <= k < i && events[k] == AckArrives(p.command) && Holds(states[k].slot, p.token);
      HeldWasInstalled(states, events, k, i - 1, p.token);
    }
  }

  /** An update is taken up exactly when it is of the pending command, acknowledged before
      and of the same execution, or of a command that belongs to the execution by what was
      finished before. Any other ends the session. */
  lemma UpdateFailsUnlessItBelongs(states: seq<Actor>, events: seq<Event>, i: nat, u: Update)
    requires IsRun(states, events) && i < |events| && events[i] == UpdateArrives(u)
    ensures var pending := states[i].slot.pending;
      var answers := pending.Some? && pending.value.command == u.command;
      var belongs := if answers then AckedBefore(states, events, i, pending.value.token, u.command) && pending.value.execution == u.execution
                     else Belongs(states, events, i, u.command, u.execution);
      && (states[i + 1].failing <==> !belongs)
      && (belongs ==> states[i + 1].handler == Some(Handler(if answers then Some(pending.value.token) else None, u, Committing)))
  {
    if states[i].slot.pending.Some? { AckedIsHistory(states, events, i); }
    KnownIsHistory(states, events, i, u.command, u.execution);
    assert Enabled(states[i], events[i]) && states[i + 1] == Step(states[i], events[i]);
    hide IsRun, AckedBefore, Belongs;
  }

  /** An acknowledgement ends the session exactly when it does not name the pending
      command or repeats an earlier one. */
  lemma AckFailsUnlessExpected(states: seq<Actor>, events: seq<Event>, i: nat, c: CommandID)
    requires IsRun(states, events) && i < |events| && events[i] == AckArrives(c)
    ensures var pending := states[i].slot.pending;
      states[i + 1].failing <==>
        !(pending.Some? && pending.value.command == c && !AckedBefore(states, events, i, pending.value.token, c))
  {
    if states[i].slot.pending.Some? { AckedIsHistory(states, events, i); }
    assert Enabled(states[i], events[i]) && states[i + 1] == Step(states[i], events[i]);
    hide IsRun, AckedBefore;
  }

  lemma {:induction false} TerminatedIsHistory(states: seq<Actor>, events: seq<Event>, i: nat)
    requires IsRun(states, events) && i < |states|
    ensures states[i].slot.terminated <==> exists k :: 0 <= k < i && events[k].StartTerminate?
  {
    if i > 0 {
      TerminatedIsHistory(states, events, i - 1);
      assert Enabled(states[i - 1], events[i - 1]) && states[i] == Step(states[i - 1], events[i - 1]);
      hide Remember;
    }
  }

  /** The holder of the command gate installs its command exactly until the session ends. */
  lemma InstallsUntilTheEnd(states: seq<Actor>, events: seq<Event>, i: nat, p: Pending)
    requires IsRun(states, events) && i < |events| && events[i] == SendCommand(p)
    ensures states[i + 1].slot.pending == Some(p) <==> !exists k :: 0 <= k < i && events[k].StartTerminate?
    ensures p.token in states[i + 1].installed <==> !exists k :: 0 <= k < i && events[k].StartTerminate?
  {
    TerminatedIsHistory(states, events, i);
    RunKeepsInv(states, events, i);
    assert Enabled(states[i], events[i]) && states[i + 1] == Step(states[i], events[i]);
  }

  // ------------------------------------------------------------ ordinary commands

  ghost predicate Follows(states: seq<Actor>, events: seq<Event>) {
    && |states| == |events| + 1
    && forall i :: 0 <= i < |events| ==> Enabled(states[i], events[i]) && states[i + 1] == Step(states[i], events[i])
  }

  /** In any session that is not over and has no command under way, a command that is
      written, acknowledged and answered brings its caller exactly one result and leaves
      the session as free as before. */
  lemma OrdinaryCommandIsAnswered(a: Actor, p: Pending, u: Update) returns (states: seq<Actor>)
    requires Inv(a) && a.sender.None? && a.handler.None? && !a.failing && a.terminator.NotStarted?
    requires p.token !in a.installed && !p.acked && u.command == p.command && u.execution == p.execution
    ensures |states| == 10
    ensures var events := [SendCommand(p), Write, AckArrives(p.command), UpdateArrives(u), CommitUpdate(true),
        AcknowledgeUpdate(true), FinishSection, DeliverResult, Leave];
      var b := states[9];
      && Follows(states, events) && states[0] == a
      && b.sent[p.token] == a.sent[p.token] + 1 && p.token in b.answered
      && b.slot.pending.None? && b.sender.None? && b.handler.None? && !b.failing && b.terminator.NotStarted?
  {
    var events := [SendCommand(p), Write, AckArrives(p.command), UpdateArrives(u), CommitUpdate(true),
      AcknowledgeUpdate(true), FinishSection, DeliverResult, Leave];
    assert a.slot.pending.None? && !a.slot.terminated;
    hide Inv, Shape, Remember;
    var b := Step(a, events[0]);
    var c := Step(b, events[1]);
    var d := Step(c, events[2]);
    var e := Step(d, events[3]);
    var f := Step(e, events[4]);
    var g := Step(f, events[5]);
    var h := Step(g, events[6]);
    var i := Step(h, events[7]);
    states := [a, b, c, d, e, f, g, h, i, Step(i, events[8])];
  }

  /** The slot is its command's own: nobody else installs, clears or finishes over it, and
      its owner gives it back for the next. */
  lemma SlotBelongsToItsCommand(s: Slot, p: Pending, q: Pending, u: Update)
    requires !s.terminated && s.pending.None? && p.token != q.token
    ensures var held := Install(s, p);
      && held.pending == Some(p) && InstallVerdictOf(s) == Installed
      && InstallVerdictOf(held) == Occupied && Install(held, q) == held && Clear(held, q.token) == held
      && Finish(held, Some(q.token), u) == held
      && Clear(held, p.token) == s && Install(Clear(held, p.token), q).pending == Some(q)
      && InstallVerdictOf(Take(held)) == SessionOver && Install(Take(held), q) == Take(held) && Take(held).pending.None?
  {
  }
}
