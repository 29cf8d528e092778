/** The commit-before-acknowledge message poller (internal/github/adapter.go).

    Every call to the provider or the durable handler gets one reply; it may fail before
    or after it took effect. A crash is a failed call followed by a restart, which loses
    the poller's own fields and nothing else. The journal records what became durable. */
module Polling {
  import opened Common

  /** `id` 0 stands for an empty session identifier; `statistics` carries the counts,
      `sound` whether they validate. */
  datatype Snapshot = Snapshot(scaleSetID: int, id: nat, statistics: nat, sound: bool)

  /** `sound`: statistics and job messages validate. */
  datatype Message = Message(scaleSetID: int, id: int, payload: nat, sound: bool)

  datatype Reply = Done | Failed | FailedAfter

  datatype Delivery = PollFailed | NoMessage | Delivered(message: Message)

  /** One poll's replies, in the order they are asked for. */
  datatype Replies = Replies(
    first: Option<Snapshot>, firstDemand: Reply, delivery: Delivery,
    second: Option<Snapshot>, secondDemand: Reply, health: Reply, commit: Reply, delete: Reply)

  datatype Entry =
    | DemandCommitted(snapshot: Snapshot)
    | DemandConfirmed(snapshot: Snapshot)
    | HealthCommitted(snapshot: Snapshot)
    | MessageCommitted(message: Message)
    | MessageDeleted(id: int)
    | Acknowledged(id: int)
    | Restarted

  /** What identifies a message to the handler. */
  datatype Key = Key(scaleSetID: int, id: int)

  function KeyOf(m: Message): Key {
    Key(m.scaleSetID, m.id)
  }

  /** The handler's durable memory of the messages it has seen, and the effects it had. */
  datatype Handled = Handled(seen: set<Key>, effects: seq<Key>)

  /** The handler is idempotent: a message seen before changes nothing. */
  function Handle(h: Handled, m: Message): Handled {
    if KeyOf(m) in h.seen then h else Handled(h.seen + {KeyOf(m)}, h.effects + [KeyOf(m)])
  }

  const NOTHING_HANDLED := Handled({}, [])

  /** The poller's fields; the journal and what was handled are durable outside it. */
  datatype State = State(
    cursor: int, bound: int, last: Option<Snapshot>, hasSnapshot: bool, journal: seq<Entry>, handled: Handled)

  datatype PollError =
    | InvalidCapacity | SessionUnavailable | InvalidSession | DemandFailed | PollError | InvalidMessage
    | HealthFailed | CommitFailed | AcknowledgeFailed

  datatype Outcome = Outcome(state: State, result: Result<Option<Message>, PollError>)

  // ---------------------------------------------------------------------- calls

  function Record(s: State, e: Entry): State {
    s.(journal := s.journal + [e], handled := if e.MessageCommitted? then Handle(s.handled, e.message) else s.handled)
  }

  /** A durable write: it took effect unless it failed before. */
  function Write(s: State, e: Entry, r: Reply): State {
    if r.Failed? then s else Record(s, e)
  }

  predicate SoundSnapshot(x: Snapshot) {
    x.scaleSetID > 0 && x.id != 0 && x.sound
  }

  /** commitSessionDemand: binds the first scale set ever seen, and commits what changed. */
  function CommitDemand(s: State, x: Snapshot, r: Reply): (State, Option<PollError>) {
    var b := if s.hasSnapshot then s else s.(bound := x.scaleSetID, hasSnapshot := true);
    if x.scaleSetID != b.bound then (b, Some(InvalidSession))
    else if b.last == Some(x) then (b, None)
    else
      var w := Write(b, DemandCommitted(x), r);
      if r.Done? then (Record(w, DemandConfirmed(x)).(last := Some(x)), None) else (w, Some(DemandFailed))
  }

  /** Reading the session, and committing its demand if it changed. */
  function ReadSession(s: State, x: Option<Snapshot>, r: Reply): (State, Option<PollError>) {
    if x.None? then (s, Some(SessionUnavailable))
    else if !SoundSnapshot(x.value) then (s, Some(InvalidSession))
    else CommitDemand(s, x.value, r)
  }

  function PollOnce(s: State, capacity: int, r: Replies): Outcome {
    if capacity < 0 then Outcome(s, Err(InvalidCapacity))
    else
      var (a, problem) := ReadSession(s, r.first, r.firstDemand);
      if problem.Some? then Outcome(a, Err(problem.value))
      else if r.delivery.PollFailed? then Outcome(a, Err(PollError))
      else
        var (b, problem) := ReadSession(a, r.second, r.secondDemand);
        if problem.Some? then Outcome(b, Err(problem.value))
        else Process(b, r.second.value, r)
  }

  predicate SoundMessage(s: State, m: Message) {
    m.scaleSetID == s.bound && m.scaleSetID > 0 && m.id > 0 && m.sound
  }

  /** Validation, session health, commit, and only then the acknowledgement. */
  function Process(s: State, x: Snapshot, r: Replies): Outcome {
    if r.delivery.Delivered? && !SoundMessage(s, r.delivery.message) then Outcome(s, Err(InvalidMessage))
    else
      var healthy := Write(s, HealthCommitted(x), r.health);
      if !r.health.Done? then Outcome(healthy, Err(HealthFailed))
      else if !r.delivery.Delivered? then Outcome(healthy, Ok(None))
      else
        var m := r.delivery.message;
        var committed := Write(healthy, MessageCommitted(m), r.commit);
        if !r.commit.Done? then Outcome(committed, Err(CommitFailed))
        else
          var deleted := Write(committed, MessageDeleted(m.id), r.delete);
          if !r.delete.Done? then Outcome(deleted, Err(AcknowledgeFailed))
          else Outcome(Record(deleted, Acknowledged(m.id)).(cursor := m.id), Ok(Some(m)))
  }

  class Poller {
    var lastAcknowledgedMessageID: int
    var boundScaleSetID: int
    var lastSessionSnapshot: Option<Snapshot>
    var hasSessionSnapshot: bool
    var journal: seq<Entry>
    var handled: Handled

    ghost function View(): State
      reads this
    {
      State(lastAcknowledgedMessageID, boundScaleSetID, lastSessionSnapshot, hasSessionSnapshot, journal, handled)
    }

    constructor (journal: seq<Entry>, handled: Handled)
      ensures View() == State(0, 0, None, false, journal, handled)
    {
      lastAcknowledgedMessageID, boundScaleSetID, lastSessionSnapshot, hasSessionSnapshot := 0, 0, None, false;
      this.journal, this.handled := journal, handled;
    }

    method WriteEntry(e: Entry, r: Reply)
      modifies this`journal, this`handled
      ensures View() == Write(old(View()), e, r)
    {
      if !r.Failed? {
        journal := journal + [e];
        if e.MessageCommitted? { HandleMessage(e.message); }
      }
    }

    /** The durable handler's side: deduplicated by the message's key. */
    method HandleMessage(m: Message)
      modifies this`handled
      ensures handled == Handle(old(handled), m)
    {
      if KeyOf(m) !in handled.seen {
        handled := Handled(handled.seen + {KeyOf(m)}, handled.effects + [KeyOf(m)]);
      }
    }

    method CommitSessionDemand(x: Snapshot, r: Reply) returns (problem: Option<PollError>)
      modifies this
      ensures (View(), problem) == CommitDemand(old(View()), x, r)
    {
      if !hasSessionSnapshot {
        boundScaleSetID := x.scaleSetID;
        hasSessionSnapshot := true;
      }
      if x.scaleSetID != boundScaleSetID { return Some(InvalidSession); }
      if lastSessionSnapshot == Some(x) { return None; }
      WriteEntry(DemandCommitted(x), r);
      if !r.Done? { return Some(DemandFailed); }
      journal := journal + [DemandConfirmed(x)];
      lastSessionSnapshot := Some(x);
      problem := None;
    }

    method PollNext(capacity: int, r: Replies) returns (result: Result<Option<Message>, PollError>)
      modifies this
      ensures Outcome(View(), result) == PollOnce(old(View()), capacity, r)
    {
      if capacity < 0 { return Err(InvalidCapacity); }
      if r.first.None? { return Err(SessionUnavailable); }
      if !SoundSnapshot(r.first.value) { return Err(InvalidSession); }
      var problem := CommitSessionDemand(r.first.value, r.firstDemand);
      if problem.Some? { return Err(problem.value); }
      if r.delivery.PollFailed? { return Err(PollError); }
      if r.second.None? { return Err(SessionUnavailable); }
      if !SoundSnapshot(r.second.value) { return Err(InvalidSession); }
      problem := CommitSessionDemand(r.second.value, r.secondDemand);
      if problem.Some? { return Err(problem.value); }
      if r.delivery.NoMessage? {
        WriteEntry(HealthCommitted(r.second.value), r.health);
        return if r.health.Done? then Ok(None) else Err(HealthFailed);
      }
      var message := r.delivery.message;
      if message.scaleSetID != boundScaleSetID || message.scaleSetID <= 0 || message.id <= 0 || !message.sound {
        return Err(InvalidMessage);
      }
      WriteEntry(HealthCommitted(r.second.value), r.health);
      if !r.health.Done? { return Err(HealthFailed); }
      WriteEntry(MessageCommitted(message), r.commit);
      if !r.commit.Done? { return Err(CommitFailed); }
      WriteEntry(MessageDeleted(message.id), r.delete);
      if !r.delete.Done? { return Err(AcknowledgeFailed); }
      journal := journal + [Acknowledged(message.id)];
      lastAcknowledgedMessageID := message.id;
      result := Ok(Some(message));
    }
  }

  // ------------------------------------------------------------------- every run

  datatype Event = Poll(capacity: int, replies: Replies) | Restart

  function Step(s: State, e: Event): State {
    match e
    case Poll(capacity, r) => PollOnce(s, capacity, r).state
    case Restart => State(0, 0, None, false, s.journal + [Restarted], s.handled)
  }

  ghost predicate IsRun(states: seq<State>, events: seq<Event>) {
    && |states| == |events| + 1
    && states[0] == State(0, 0, None, false, [], NOTHING_HANDLED)
    && forall i :: 0 <= i < |events| ==> states[i + 1] == Step(states[i], events[i])
  }

  /** The last message acknowledged since the last restart, or 0. */
  function LastAcknowledged(journal: seq<Entry>): int {
    if journal == [] then 0
    else
      match journal[|journal| - 1]
      case Acknowledged(id) => id
      case Restarted => 0
      case _ => LastAcknowledged(journal[..|journal| - 1])
  }

  /** The scale set of the first demand, health or message entry since the last restart. */
  function FirstScaleSet(journal: seq<Entry>): Option<int> {
    if journal == [] || journal[|journal| - 1].Restarted? then None
    else
      var before := FirstScaleSet(journal[..|journal| - 1]);
      if before.Some? then before
      else
        match journal[|journal| - 1]
        case DemandCommitted(x) => Some(x.scaleSetID)
        case HealthCommitted(x) => Some(x.scaleSetID)
        case MessageCommitted(m) => Some(m.scaleSetID)
        case _ => None
  }

  /** What may directly follow what. */
  ghost predicate Follows(before: seq<Entry>, e: Entry) {
    match e
    case MessageCommitted(m) =>
      && m.id > 0 && m.scaleSetID > 0 && m.sound
      && before != [] && before[|before| - 1].HealthCommitted?
      && before[|before| - 1].snapshot.scaleSetID == m.scaleSetID
    case MessageDeleted(id) =>
      before != [] && before[|before| - 1].MessageCommitted? && before[|before| - 1].message.id == id
    case Acknowledged(id) => before != [] && before[|before| - 1] == MessageDeleted(id)
    case HealthCommitted(x) => SoundSnapshot(x) && (FirstScaleSet(before).None? || FirstScaleSet(before) == Some(x.scaleSetID))
    case DemandCommitted(x) => SoundSnapshot(x) && (FirstScaleSet(before).None? || FirstScaleSet(before) == Some(x.scaleSetID))
    case DemandConfirmed(x) => before != [] && before[|before| - 1] == DemandCommitted(x)
    case Restarted => true
  }

  ghost predicate Ordered(journal: seq<Entry>) {
    forall i {:trigger journal[..i]} :: 0 <= i < |journal| ==> Follows(journal[..i], journal[i])
  }

  ghost predicate Inv(s: State) {
    && Ordered(s.journal)
    && s.cursor == LastAcknowledged(s.journal)
    && (FirstScaleSet(s.journal).Some? ==> s.hasSnapshot && FirstScaleSet(s.journal) == Some(s.bound))
  }

  lemma Append(journal: seq<Entry>, e: Entry)
    requires Ordered(journal) && Follows(journal, e)
    ensures Ordered(journal + [e])
  {
    hide Follows;
    forall i | 0 <= i < |journal + [e]| ensures Follows((journal + [e])[..i], (journal + [e])[i]) {
      if i < |journal| {
        assert (journal + [e])[..i] == journal[..i];
      } else {
        assert (journal + [e])[..i] == journal;
      }
    }
  }

  lemma RecordKeepsInv(s: State, e: Entry)
    requires Inv(s) && Follows(s.journal, e)
    requires !e.Restarted? && !e.Acknowledged?
    requires e.DemandCommitted? || e.HealthCommitted? ==> s.hasSnapshot && e.snapshot.scaleSetID == s.bound
    requires e.MessageCommitted? ==> s.hasSnapshot && e.message.scaleSetID == s.bound
    ensures Inv(Record(s, e))
  {
    Append(s.journal, e);
    assert (s.journal + [e])[..|s.journal|] == s.journal;
  }

  lemma CommitDemandKeepsInv(s: State, x: Snapshot, r: Reply)
    requires Inv(s) && SoundSnapshot(x)
    ensures var (t, problem) := CommitDemand(s, x, r);
      Inv(t) && (problem.None? ==> t.hasSnapshot && t.bound == x.scaleSetID)
  {
    var b := if s.hasSnapshot then s else s.(bound := x.scaleSetID, hasSnapshot := true);
    assert Inv(b);
    if x.scaleSetID == b.bound {
      RecordKeepsInv(b, DemandCommitted(x));
      RecordKeepsInv(Record(b, DemandCommitted(x)), DemandConfirmed(x));
    }
  }

  lemma ProcessKeepsInv(s: State, x: Snapshot, r: Replies)
    requires Inv(s) && SoundSnapshot(x) && s.hasSnapshot && s.bound == x.scaleSetID
    ensures Inv(Process(s, x, r).state)
  {
    hide Ordered;
    RecordKeepsInv(s, HealthCommitted(x));
    var healthy := Record(s, HealthCommitted(x));
    if r.delivery.Delivered? && SoundMessage(s, r.delivery.message) {
      var m := r.delivery.message;
      RecordKeepsInv(healthy, MessageCommitted(m));
      var committed := Record(healthy, MessageCommitted(m));
      RecordKeepsInv(committed, MessageDeleted(m.id));
      var deleted := Record(committed, MessageDeleted(m.id));
      Append(deleted.journal, Acknowledged(m.id));
      assert (deleted.journal + [Acknowledged(m.id)])[..|deleted.journal|] == deleted.journal;
    }
  }

  lemma StepKeepsInv(s: State, e: Event)
    requires Inv(s)
    ensures Inv(Step(s, e))
  {
    match e
    case Restart => Append(s.journal, Restarted);
    case Poll(capacity, r) =>
      hide Inv, Process, CommitDemand;
      if r.first.Some? && SoundSnapshot(r.first.value) {
        CommitDemandKeepsInv(s, r.first.value, r.firstDemand);
        var (a, problem) := CommitDemand(s, r.first.value, r.firstDemand);
        if r.second.Some? && SoundSnapshot(r.second.value) {
          CommitDemandKeepsInv(a, r.second.value, r.secondDemand);
          var (b, problem) := CommitDemand(a, r.second.value, r.secondDemand);
          if problem.None? { ProcessKeepsInv(b, r.second.value, r); }
        }
      }
  }

  lemma {:induction false} RunKeepsInv(states: seq<State>, events: seq<Event>, i: nat)
    requires IsRun(states, events) && i < |states|
    ensures Inv(states[i])
  {
    hide Step;
    if i > 0 {
      RunKeepsInv(states, events, i - 1);
      hide Inv;
      StepKeepsInv(states[i - 1], events[i - 1]);
    }
  }

  // ------------------------------------------------------------------ main results

  /** The cursor is 0 or the last message this poller deleted, over any redeliveries,
      failures and restarts. */
  lemma CursorIsLastDeleted(states: seq<State>, events: seq<Event>, i: nat)
    requires IsRun(states, events) && i < |states|
    ensures states[i].cursor == LastAcknowledged(states[i].journal)
  {
    RunKeepsInv(states, events, i);
  }

  /** A message is deleted only directly after it was durably committed, which happens
      only directly after the session it came from was committed as healthy. */
  lemma DeletedWasCommitted(states: seq<State>, events: seq<Event>, i: nat, j: nat)
    requires IsRun(states, events) && i < |states|
    requires j < |states[i].journal| && states[i].journal[j].MessageDeleted?
    ensures j >= 2
    ensures var journal := states[i].journal;
      && journal[j - 1].MessageCommitted? && journal[j - 1].message.id == journal[j].id
      && journal[j - 2].HealthCommitted? && journal[j - 2].snapshot.scaleSetID == journal[j - 1].message.scaleSetID
  {
    RunKeepsInv(states, events, i);
    hide IsRun;
    var journal := states[i].journal;
    assert Follows(journal[..j], journal[j]);
    assert Follows(journal[..j - 1], journal[j - 1]);
  }

  /** Between two restarts only one scale set is ever committed for. */
  lemma OneScaleSetPerPoller(states: seq<State>, events: seq<Event>, i: nat, j: nat)
    requires IsRun(states, events) && i < |states|
    requires j < |states[i].journal|
    ensures var journal := states[i].journal;
      var bound := FirstScaleSet(journal[..j]);
      match journal[j]
      case DemandCommitted(x) => bound.None? || bound == Some(x.scaleSetID)
      case HealthCommitted(x) => bound.None? || bound == Some(x.scaleSetID)
      case MessageCommitted(m) => bound == Some(m.scaleSetID)
      case _ => true
  {
    RunKeepsInv(states, events, i);
    hide IsRun;
    var journal := states[i].journal;
    assert Follows(journal[..j], journal[j]);
    if journal[j].MessageCommitted? {
      assert Follows(journal[..j - 1], journal[j - 1]);
      assert journal[..j][..j - 1] == journal[..j - 1];
    }
  }

  // ----------------------------------------------------- effects of the messages

  function Count(effects: seq<Key>, k: Key): nat {
    if effects == [] then 0 else Count(effects[..|effects| - 1], k) + if effects[|effects| - 1] == k then 1 else 0
  }

  ghost predicate WasCommitted(journal: seq<Entry>, k: Key) {
    exists i :: 0 <= i < |journal| && journal[i].MessageCommitted? && KeyOf(journal[i].message) == k
  }

  /** The handler has seen exactly the committed messages, and each had one effect. */
  ghost predicate HandledInv(s: State) {
    && (forall k :: k in s.handled.seen <==> WasCommitted(s.journal, k))
    && (forall k :: Count(s.handled.effects, k) == if k in s.handled.seen then 1 else 0)
  }

  lemma RecordKeepsHandled(s: State, e: Entry)
    requires HandledInv(s)
    ensures HandledInv(Record(s, e))
  {
    var t := Record(s, e);
    assert t.journal[|s.journal|] == e;
    forall k ensures WasCommitted(t.journal, k) <==>
      WasCommitted(s.journal, k) || (e.MessageCommitted? && KeyOf(e.message) == k)
    {
      if i :| 0 <= i < |s.journal| && s.journal[i].MessageCommitted? && KeyOf(s.journal[i].message) == k {
        assert t.journal[i] == s.journal[i];
      }
    }
    hide WasCommitted;
    if t.handled != s.handled {
      var n := |s.handled.effects|;
      assert t.handled.effects[..n] == s.handled.effects;
    }
  }

  lemma ProcessKeepsHandled(s: State, x: Snapshot, r: Replies)
    requires HandledInv(s)
    ensures HandledInv(Process(s, x, r).state)
  {
    hide HandledInv;
    RecordKeepsHandled(s, HealthCommitted(x));
    if r.delivery.Delivered? {
      var m := r.delivery.message;
      var healthy := Record(s, HealthCommitted(x));
      RecordKeepsHandled(healthy, MessageCommitted(m));
      var committed := Record(healthy, MessageCommitted(m));
      RecordKeepsHandled(committed, MessageDeleted(m.id));
      var deleted := Record(committed, MessageDeleted(m.id));
      RecordKeepsHandled(deleted, Acknowledged(m.id));
      CursorApart(Record(deleted, Acknowledged(m.id)), m.id);
    }
  }

  lemma CursorApart(s: State, cursor: int)
    requires HandledInv(s)
    ensures HandledInv(s.(cursor := cursor))
  {
  }

  lemma CommitDemandKeepsHandled(s: State, x: Snapshot, r: Reply)
    requires HandledInv(s)
    ensures HandledInv(CommitDemand(s, x, r).0)
  {
    var b := if s.hasSnapshot then s else s.(bound := x.scaleSetID, hasSnapshot := true);
    RecordKeepsHandled(b, DemandCommitted(x));
    RecordKeepsHandled(Record(b, DemandCommitted(x)), DemandConfirmed(x));
  }

  lemma StepKeepsHandled(s: State, e: Event)
    requires HandledInv(s)
    ensures HandledInv(Step(s, e))
  {
    match e
    case Restart => RecordKeepsHandled(s, Restarted);
    case Poll(capacity, r) =>
      hide HandledInv, Process, CommitDemand;
      if r.first.Some? && SoundSnapshot(r.first.value) {
        CommitDemandKeepsHandled(s, r.first.value, r.firstDemand);
        var (a, problem) := CommitDemand(s, r.first.value, r.firstDemand);
        if r.second.Some? && SoundSnapshot(r.second.value) {
          CommitDemandKeepsHandled(a, r.second.value, r.secondDemand);
          var (b, problem) := CommitDemand(a, r.second.value, r.secondDemand);
          ProcessKeepsHandled(b, r.second.value, r);
        }
      }
  }

  lemma {:induction false} RunKeepsHandled(states: seq<State>, events: seq<Event>, i: nat)
    requires IsRun(states, events) && i < |states|
    ensures HandledInv(states[i])
  {
    hide Step;
    if i > 0 {
      RunKeepsHandled(states, events, i - 1);
      hide HandledInv;
      StepKeepsHandled(states[i - 1], events[i - 1]);
    }
  }

  /** However often a message is redelivered, committed again after a lost reply or
      polled after a restart, it had exactly one effect if it was ever committed and none
      otherwise; every deleted message had its one effect. */
  lemma MessagesTakeEffectOnce(states: seq<State>, events: seq<Event>, i: nat, m: Message, j: nat)
    requires IsRun(states, events) && i < |states|
    ensures Count(states[i].handled.effects, KeyOf(m)) == if WasCommitted(states[i].journal, KeyOf(m)) then 1 else 0
    ensures j < |states[i].journal| && states[i].journal[j].MessageDeleted? ==>
      && 0 < j && states[i].journal[j - 1].MessageCommitted? && states[i].journal[j - 1].message.id == states[i].journal[j].id
      && Count(states[i].handled.effects, KeyOf(states[i].journal[j - 1].message)) == 1
  {
    RunKeepsHandled(states, events, i);
    if j < |states[i].journal| && states[i].journal[j].MessageDeleted? {
      DeletedWasCommitted(states, events, i, j);
      assert WasCommitted(states[i].journal, KeyOf(states[i].journal[j - 1].message));
    }
    hide IsRun, Count, WasCommitted;
  }

  // ----------------------------------------------------------- the session's demand

  function LastDemand(journal: seq<Entry>): Option<Snapshot> {
    if journal == [] then None
    else
      match journal[|journal| - 1]
      case DemandCommitted(x) => Some(x)
      case _ => LastDemand(journal[..|journal| - 1])
  }

  /** Whether the last demand commit that took effect was reported as done. */
  predicate LastDemandConfirmed(journal: seq<Entry>) {
    journal != [] &&
    match journal[|journal| - 1]
    case DemandConfirmed(_) => true
    case DemandCommitted(_) => false
    case _ => LastDemandConfirmed(journal[..|journal| - 1])
  }

  lemma LastDemandOfRecord(s: State, e: Entry)
    ensures LastDemand(Record(s, e).journal) == if e.DemandCommitted? then Some(e.snapshot) else LastDemand(s.journal)
    ensures LastDemandConfirmed(Record(s, e).journal) ==
      (e.DemandConfirmed? || (!e.DemandCommitted? && LastDemandConfirmed(s.journal)))
  {
    assert (s.journal + [e])[..|s.journal|] == s.journal;
  }

  lemma ProcessKeepsDemand(s: State, x: Snapshot, r: Replies)
    ensures LastDemand(Process(s, x, r).state.journal) == LastDemand(s.journal)
    ensures LastDemandConfirmed(Process(s, x, r).state.journal) == LastDemandConfirmed(s.journal)
    ensures Process(s, x, r).state.last == s.last
  {
    var healthy := Record(s, HealthCommitted(x));
    LastDemandOfRecord(s, HealthCommitted(x));
    if r.delivery.Delivered? {
      var m := r.delivery.message;
      var committed := Record(healthy, MessageCommitted(m));
      LastDemandOfRecord(healthy, MessageCommitted(m));
      var deleted := Record(committed, MessageDeleted(m.id));
      LastDemandOfRecord(committed, MessageDeleted(m.id));
      LastDemandOfRecord(deleted, Acknowledged(m.id));
    }
  }

  /** The remembered demand is the durable one exactly when the last demand commit that
      took effect was also reported as done. */
  ghost predicate DemandMatches(s: State) {
    s.last.Some? ==> (LastDemand(s.journal) == s.last <==> LastDemandConfirmed(s.journal))
  }

  /** Skipping an unchanged snapshot is safe exactly as long as no demand commit has taken
      effect and yet been reported as failed since the last one reported as done. */
  lemma SkippedDemandIsDurable(states: seq<State>, events: seq<Event>, i: nat)
    requires IsRun(states, events) && i < |states| && states[i].last.Some?
    ensures LastDemand(states[i].journal) == states[i].last <==> LastDemandConfirmed(states[i].journal)
  {
    RunKeepsDemand(states, events, i);
  }

  lemma {:induction false} RunKeepsDemand(states: seq<State>, events: seq<Event>, i: nat)
    requires IsRun(states, events) && i < |states|
    ensures DemandMatches(states[i])
  {
    if i > 0 {
      RunKeepsDemand(states, events, i - 1);
      var s, e := states[i - 1], events[i - 1];
      assert states[i] == Step(s, e);
      if e.Poll? {
        hide DemandMatches, PollOnce;
        PollKeepsDemand(s, e.capacity, e.replies);
      }
    }
  }

  lemma PollKeepsDemand(s: State, capacity: int, r: Replies)
    requires DemandMatches(s)
    ensures DemandMatches(PollOnce(s, capacity, r).state)
  {
    hide CommitDemand, Process, DemandMatches;
    if r.first.Some? && SoundSnapshot(r.first.value) {
      CommitKeepsDemand(s, r.first.value, r.firstDemand);
      var (a, problem) := CommitDemand(s, r.first.value, r.firstDemand);
      if r.second.Some? && SoundSnapshot(r.second.value) {
        CommitKeepsDemand(a, r.second.value, r.secondDemand);
        var (b, problem) := CommitDemand(a, r.second.value, r.secondDemand);
        ProcessMatchesDemand(b, r.second.value, r);
      }
    }
  }

  lemma ProcessMatchesDemand(s: State, x: Snapshot, r: Replies)
    requires DemandMatches(s)
    ensures DemandMatches(Process(s, x, r).state)
  {
    ProcessKeepsDemand(s, x, r);
  }

  lemma CommitKeepsDemand(s: State, x: Snapshot, r: Reply)
    requires DemandMatches(s)
    ensures DemandMatches(CommitDemand(s, x, r).0)
    ensures CommitDemand(s, x, r).1.None? ==> CommitDemand(s, x, r).0.last == Some(x)
  {
    var b := if s.hasSnapshot then s else s.(bound := x.scaleSetID, hasSnapshot := true);
    LastDemandOfRecord(b, DemandCommitted(x));
    LastDemandOfRecord(Record(b, DemandCommitted(x)), DemandConfirmed(x));
  }

  /** The other case is real: a session that returns to its earlier demand leaves the wrong
      one durable, because the failed commit took effect and the return is skipped. */
  lemma SkippedDemandCanBeStale(x: Snapshot, y: Snapshot) returns (states: seq<State>, events: seq<Event>)
    requires SoundSnapshot(x) && SoundSnapshot(y) && x != y && x.scaleSetID == y.scaleSetID
    ensures IsRun(states, events) && |events| == 3
    ensures states[3].last == Some(x) && LastDemand(states[3].journal) == Some(y)
  {
    var quiet := Replies(Some(x), Done, NoMessage, Some(x), Done, Done, Done, Done);
    var failing := quiet.(first := Some(y), firstDemand := FailedAfter);
    var none := State(0, 0, None, false, [], NOTHING_HANDLED);
    var one := State(0, x.scaleSetID, Some(x), true,
      [DemandCommitted(x), DemandConfirmed(x), HealthCommitted(x)], NOTHING_HANDLED);
    var two := Record(one, DemandCommitted(y));
    var three := Record(two, HealthCommitted(x));
    states, events := [none, one, two, three], [Poll(0, quiet), Poll(0, failing), Poll(0, quiet)];
    assert Step(none, Poll(0, quiet)) == one;
    assert Step(one, Poll(0, failing)) == two;
    assert Step(two, Poll(0, quiet)) == three;
    LastDemandOfRecord(one, DemandCommitted(y));
    LastDemandOfRecord(two, HealthCommitted(x));
  }

  // ---------------------------------------------------------------- the poll table

  function When(b: bool, e: Entry): seq<Entry> {
    if b then [e] else []
  }

  /** The scale set this poller is bound to once it has seen a snapshot. */
  function BoundTo(s: State, x: Snapshot): int {
    if s.hasSnapshot then s.bound else x.scaleSetID
  }

  /** How far a poll comes: the session read, its demand durable, messages asked for, the
      session read again, its demand durable, what it brought found valid, health reported,
      the message committed and deleted. */
  predicate Opens(s: State, capacity: int, r: Replies) {
    && capacity >= 0 && r.first.Some? && SoundSnapshot(r.first.value)
    && r.first.value.scaleSetID == BoundTo(s, r.first.value)
  }

  predicate Asks(s: State, capacity: int, r: Replies) {
    Opens(s, capacity, r) && (s.last == r.first || r.firstDemand.Done?)
  }

  predicate Reopens(s: State, capacity: int, r: Replies) {
    && Asks(s, capacity, r) && !r.delivery.PollFailed? && r.second.Some? && SoundSnapshot(r.second.value)
    && r.second.value.scaleSetID == r.first.value.scaleSetID
  }

  predicate Reports(s: State, capacity: int, r: Replies) {
    && Reopens(s, capacity, r) && (r.second == r.first || r.secondDemand.Done?)
    && (r.delivery.Delivered? ==>
          var m := r.delivery.message; m.scaleSetID == r.first.value.scaleSetID && m.id > 0 && m.sound)
  }

  predicate Commits(s: State, capacity: int, r: Replies) {
    Reports(s, capacity, r) && r.health.Done? && r.delivery.Delivered?
  }

  predicate Deletes(s: State, capacity: int, r: Replies) {
    Commits(s, capacity, r) && r.commit.Done?
  }

  predicate Acknowledges(s: State, capacity: int, r: Replies) {
    Deletes(s, capacity, r) && r.delete.Done?
  }

  /** The entries of one read of the session: its demand, unless it is the last one. */
  function DemandEntries(isRead: bool, last: Option<Snapshot>, x: Option<Snapshot>, r: Reply): seq<Entry>
    requires isRead ==> x.Some?
  {
    if !isRead || last == x || r.Failed? then []
    else if r.Done? then [DemandCommitted(x.value), DemandConfirmed(x.value)]
    else [DemandCommitted(x.value)]
  }

  function MessageEntries(s: State, capacity: int, r: Replies): seq<Entry> {
    When(Reports(s, capacity, r) && !r.health.Failed?, HealthCommitted(if r.second.Some? then r.second.value else Snapshot(0, 0, 0, false))) +
    (if Commits(s, capacity, r) && !r.commit.Failed? then
       [MessageCommitted(r.delivery.message)] +
       When(Deletes(s, capacity, r) && !r.delete.Failed?, MessageDeleted(r.delivery.message.id)) +
       When(Acknowledges(s, capacity, r), Acknowledged(r.delivery.message.id))
     else [])
  }

  lemma ReadTable(s: State, x: Option<Snapshot>, r: Reply)
    ensures var (t, problem) := ReadSession(s, x, r);
      var opens := x.Some? && SoundSnapshot(x.value) && x.value.scaleSetID == BoundTo(s, x.value);
      && (problem.None? <==> opens && (s.last == x || r.Done?))
      && (problem.Some? ==> problem.value == if x.None? then SessionUnavailable else if !opens then InvalidSession else DemandFailed)
      && t.journal == s.journal + DemandEntries(opens, s.last, x, r)
      && t.last == (if opens && r.Done? then x else s.last)
      && t.cursor == s.cursor
      && (s.hasSnapshot ==> t.hasSnapshot && t.bound == s.bound)
      && (x.Some? && SoundSnapshot(x.value) ==> t.hasSnapshot && t.bound == BoundTo(s, x.value))
  {
  }

  lemma ProcessTable(s: State, x: Snapshot, r: Replies)
    ensures var o := Process(s, x, r);
      var valid := r.delivery.Delivered? ==>
        var m := r.delivery.message; m.scaleSetID == s.bound && m.scaleSetID > 0 && m.id > 0 && m.sound;
      var commits := valid && r.health.Done? && r.delivery.Delivered?;
      var acknowledges := commits && r.commit.Done? && r.delete.Done?;
      && o.state.journal == s.journal + When(valid && !r.health.Failed?, HealthCommitted(x)) +
           (if commits && !r.commit.Failed? then
              [MessageCommitted(r.delivery.message)] +
              When(r.commit.Done? && !r.delete.Failed?, MessageDeleted(r.delivery.message.id)) +
              When(acknowledges, Acknowledged(r.delivery.message.id))
            else [])
      && o.state.cursor == (if acknowledges then r.delivery.message.id else s.cursor)
      && o.state.last == s.last && o.state.bound == s.bound && o.state.hasSnapshot == s.hasSnapshot
      && (o.result.Ok? <==> acknowledges || (valid && r.health.Done? && !r.delivery.Delivered?))
      && (o.result.Ok? ==> o.result.value == if r.delivery.Delivered? then Some(r.delivery.message) else None)
      && (o.result.Err? ==>
            o.result.error == if !valid then InvalidMessage else if !r.health.Done? then HealthFailed
                              else if !r.commit.Done? then CommitFailed else AcknowledgeFailed)
  {
    var j := s.journal;
    if r.delivery.Delivered? {
      var m := r.delivery.message;
      assert j + [HealthCommitted(x)] + ([MessageCommitted(m)] + [MessageDeleted(m.id)] + [Acknowledged(m.id)]) ==
        j + [HealthCommitted(x)] + [MessageCommitted(m)] + [MessageDeleted(m.id)] + [Acknowledged(m.id)];
      assert j + [HealthCommitted(x)] + ([MessageCommitted(m)] + [MessageDeleted(m.id)] + []) ==
        j + [HealthCommitted(x)] + [MessageCommitted(m)] + [MessageDeleted(m.id)];
      assert j + [HealthCommitted(x)] + ([MessageCommitted(m)] + [] + []) == j + [HealthCommitted(x)] + [MessageCommitted(m)];
    }
    hide Handle;
  }

  /** One poll, reply by reply: what it makes durable and in which order, where the cursor
      stands, and when it succeeds. A demand is written exactly when it differs from the
      last one confirmed; a message is deleted only after its commit was confirmed. */
  lemma PollTable(s: State, capacity: int, r: Replies)
    ensures var o := PollOnce(s, capacity, r);
      && o.state.journal == s.journal + DemandEntries(Opens(s, capacity, r), s.last, r.first, r.firstDemand) +
           DemandEntries(Reopens(s, capacity, r), r.first, r.second, r.secondDemand) + MessageEntries(s, capacity, r)
      && o.state.cursor == (if Acknowledges(s, capacity, r) then r.delivery.message.id else s.cursor)
      && (o.result.Ok? <==> Acknowledges(s, capacity, r) || (Reports(s, capacity, r) && r.health.Done? && r.delivery.NoMessage?))
      && (o.result.Ok? ==> o.result.value == if r.delivery.Delivered? then Some(r.delivery.message) else None)
  {
    ReadTable(s, r.first, r.firstDemand);
    var (a, problem) := ReadSession(s, r.first, r.firstDemand);
    assert !Reports(s, capacity, r) ==> MessageEntries(s, capacity, r) == [];
    assert DemandEntries(false, r.first, r.second, r.secondDemand) == [] && DemandEntries(false, s.last, r.first, r.firstDemand) == [];
    assert s.journal + [] + [] + [] == s.journal;
    hide ReadSession, SoundSnapshot, DemandEntries;
    if capacity >= 0 && problem.None? && !r.delivery.PollFailed? {
      assert a.last == r.first;
      ReadTable(a, r.second, r.secondDemand);
      var (b, again) := ReadSession(a, r.second, r.secondDemand);
      if again.None? { ProcessTable(b, r.second.value, r); }
      hide Process;
    }
  }

  /** The error of a poll tells the first call that failed or what was found wrong. */
  lemma PollErrors(s: State, capacity: int, r: Replies)
    ensures var o := PollOnce(s, capacity, r);
      && (o.result == Err(InvalidCapacity) <==> capacity < 0)
      && (o.result == Err(DemandFailed) <==>
            || (Opens(s, capacity, r) && !Asks(s, capacity, r))
            || (Reopens(s, capacity, r) && r.second != r.first && !r.secondDemand.Done?))
      && (o.result == Err(PollError) <==> Asks(s, capacity, r) && r.delivery.PollFailed?)
      && (o.result == Err(InvalidMessage) <==>
            Reopens(s, capacity, r) && (r.second == r.first || r.secondDemand.Done?) && !Reports(s, capacity, r))
      && (o.result == Err(HealthFailed) <==> Reports(s, capacity, r) && !r.health.Done?)
      && (o.result == Err(CommitFailed) <==> Commits(s, capacity, r) && !r.commit.Done?)
      && (o.result == Err(AcknowledgeFailed) <==> Deletes(s, capacity, r) && !r.delete.Done?)
      && (o.result == Err(SessionUnavailable) <==>
            capacity >= 0 && (r.first.None? || (Asks(s, capacity, r) && !r.delivery.PollFailed? && r.second.None?)))
  {
    ReadTable(s, r.first, r.firstDemand);
    var (a, problem) := ReadSession(s, r.first, r.firstDemand);
    hide ReadSession, DemandEntries;
    if capacity >= 0 && problem.None? && !r.delivery.PollFailed? {
      assert a.last == r.first;
      ReadTable(a, r.second, r.secondDemand);
      var (b, again) := ReadSession(a, r.second, r.secondDemand);
      if again.None? { ProcessTable(b, r.second.value, r); }
      hide Process;
    }
  }

  /** Over every run, a message that is delivered, valid and meets no failure is committed,
      deleted and acknowledged in this very poll. */
  lemma ValidMessageIsTaken(states: seq<State>, events: seq<Event>, i: nat)
    requires IsRun(states, events) && i < |events| && events[i].Poll?
    requires Acknowledges(states[i], events[i].capacity, events[i].replies)
    ensures var m := events[i].replies.delivery.message;
      var j := states[i + 1].journal;
      && |j| >= 4 && j[|j| - 3..] == [MessageCommitted(m), MessageDeleted(m.id), Acknowledged(m.id)]
      && states[i + 1].cursor == m.id
  {
    var r := events[i].replies;
    assert states[i + 1] == Step(states[i], events[i]);
    PollTable(states[i], events[i].capacity, r);
    var j := states[i + 1].journal;
    assert MessageEntries(states[i], events[i].capacity, r) ==
      [HealthCommitted(r.second.value), MessageCommitted(r.delivery.message), MessageDeleted(r.delivery.message.id),
       Acknowledged(r.delivery.message.id)];
    hide IsRun, PollOnce, DemandEntries, MessageEntries, Acknowledges, Opens, Reopens;
  }
}
