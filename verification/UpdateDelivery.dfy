/** Delivery of execution updates from the Agent's durable outbox to the
    Controller, over any number of sessions.

    The Agent sends the head of its outbox, waits for the matching acknowledgement
    and only then deletes the row (internal/app/agent.go). The Controller commits
    before it acknowledges (internal/app/agent_broker.go). A session the Agent has
    given up may still deliver what it carried. Assumed of the stores: the outbox
    is first-in first-out and keeps one row per message ID, and the consumer
    commits each (node, message ID) once. */
module UpdateDelivery {
  import opened Common

  type MessageID = string

  const NONE: MessageID := ""

  // -------------------------------------------------------------- agent loop

  /** The outbox and the session loop's two expectations; NONE means not waiting. */
  datatype Loop = Loop(outbox: seq<MessageID>, awaitingUpdate: MessageID, awaitingHeartbeat: MessageID)

  /** How the outbox answers an acknowledgement: it may fail before or after the row is gone. */
  datatype StoreReply = Deleted | Refused | DeletedButFailed

  datatype AckVerdict = HeartbeatConfirmed | UpdateAcknowledged | Mismatch | Degraded

  function Publish(l: Loop, id: MessageID): Loop {
    if id in l.outbox then l else l.(outbox := l.outbox + [id])
  }

  function Sendable(l: Loop): Option<MessageID> {
    if l.awaitingUpdate == NONE && l.outbox != [] then Some(l.outbox[0]) else None
  }

  function SendHead(l: Loop): Loop {
    if Sendable(l).Some? then l.(awaitingUpdate := Sendable(l).value) else l
  }

  function Without(outbox: seq<MessageID>, id: MessageID): seq<MessageID> {
    if outbox == [] then []
    else if outbox[0] == id then outbox[1..]
    else [outbox[0]] + Without(outbox[1..], id)
  }

  function ReceiveAck(l: Loop, id: MessageID, reply: StoreReply): (Loop, AckVerdict) {
    var matchesHeartbeat := l.awaitingHeartbeat != NONE && id == l.awaitingHeartbeat;
    var matchesUpdate := l.awaitingUpdate != NONE && id == l.awaitingUpdate;
    if matchesHeartbeat == matchesUpdate then (l, Mismatch)
    else if matchesHeartbeat then (l.(awaitingHeartbeat := NONE), HeartbeatConfirmed)
    else if id !in l.outbox || reply.Refused? then (l, Degraded)
    else if reply.DeletedButFailed? then (l.(outbox := Without(l.outbox, id)), Degraded)
    else (l.(outbox := Without(l.outbox, id), awaitingUpdate := NONE), UpdateAcknowledged)
  }

  /** The loop's variables, updated as the session reads and writes. */
  class AgentSession {
    var outbox: seq<MessageID>
    var awaitingUpdateAck: MessageID
    var awaitingHeartbeatAck: MessageID

    ghost function View(): Loop
      reads this
    {
      Loop(outbox, awaitingUpdateAck, awaitingHeartbeatAck)
    }

    constructor (pending: seq<MessageID>)
      ensures View() == Loop(pending, NONE, NONE)
    {
      outbox, awaitingUpdateAck, awaitingHeartbeatAck := pending, NONE, NONE;
    }

    method QueueUpdate(id: MessageID)
      modifies this`outbox
      ensures View() == Publish(old(View()), id)
    {
      if id !in outbox {
        outbox := outbox + [id];
      }
    }

    method SendPendingHead() returns (sent: Option<MessageID>)
      modifies this`awaitingUpdateAck
      ensures sent == Sendable(old(View())) && View() == SendHead(old(View()))
    {
      sent := None;
      if awaitingUpdateAck == NONE {
        if |outbox| > 0 {
          awaitingUpdateAck := outbox[0];
          sent := Some(outbox[0]);
        }
      }
    }

    /** A second heartbeat is not sent while the first is unacknowledged. */
    method Heartbeat(messageID: MessageID) returns (sent: bool)
      modifies this`awaitingHeartbeatAck
      ensures sent == (old(awaitingHeartbeatAck) == NONE)
      ensures View() == if sent then old(View()).(awaitingHeartbeat := messageID) else old(View())
    {
      if awaitingHeartbeatAck != NONE {
        return false;
      }
      awaitingHeartbeatAck := messageID;
      sent := true;
    }

    method Acknowledgement(id: MessageID, reply: StoreReply) returns (verdict: AckVerdict)
      modifies this
      ensures (View(), verdict) == ReceiveAck(old(View()), id, reply)
    {
      var matchesHeartbeat := awaitingHeartbeatAck != NONE && id == awaitingHeartbeatAck;
      var matchesUpdate := awaitingUpdateAck != NONE && id == awaitingUpdateAck;
      if matchesHeartbeat == matchesUpdate {
        return Mismatch;
      }
      if matchesHeartbeat {
        awaitingHeartbeatAck := NONE;
        return HeartbeatConfirmed;
      }
      verdict := DeleteRow(id, reply);
      if verdict.UpdateAcknowledged? {
        awaitingUpdateAck := NONE;
      }
    }

    /** The outbox row with this ID goes, and no other. */
    method DeleteRow(id: MessageID, reply: StoreReply) returns (verdict: AckVerdict)
      modifies this`outbox
      ensures verdict == if id in old(outbox) && reply.Deleted? then UpdateAcknowledged else Degraded
      ensures outbox == if id in old(outbox) && !reply.Refused? then Without(old(outbox), id) else old(outbox)
    {
      if id !in outbox || reply.Refused? {
        return Degraded;
      }
      var i := 0;
      while outbox[i] != id
        decreases |outbox| - i
        invariant 0 <= i < |outbox| && id !in outbox[..i]
        invariant Without(outbox, id) == outbox[..i] + Without(outbox[i..], id)
      {
        assert outbox[i..][1..] == outbox[i + 1..];
        assert outbox[..i] + [outbox[i]] == outbox[..i + 1];
        i := i + 1;
      }
      assert outbox[i..][1..] == outbox[i + 1..];
      outbox := outbox[..i] + outbox[i + 1..];
      verdict := if reply.Deleted? then UpdateAcknowledged else Degraded;
    }
  }

  // ------------------------------------------------------------------ system

  datatype Wire = Update(id: MessageID) | Heartbeat(id: MessageID)

  datatype Ack = Ack(id: MessageID, forUpdate: bool)

  /** One session's connection: what the Controller has still to read, and what the Agent has. */
  datatype Link = Link(toController: seq<Wire>, toAgent: seq<Ack>, open: bool)

  /** `published` and `removed` record the history of the outbox. */
  datatype System = System(
    published: seq<MessageID>,
    removed: nat,
    agent: Loop,
    current: Option<nat>,
    links: seq<Link>,
    committed: seq<MessageID>)

  /** What the Controller does with the message it reads from a session. */
  datatype Outcome =
    | Rejected            // refused before the consumer, or the consumer committed nothing
    | CommittedUnanswered // committed, but the consumer failed or the acknowledgement was lost
    | Answered            // committed and acknowledged

  datatype Event =
    | PublishUpdate(id: MessageID)
    | Connect
    | Disconnect
    | SendUpdate
    | SendHeartbeat(id: MessageID)
    | Deliver(link: nat, outcome: Outcome)
    | TakeAck(reply: StoreReply)

  /** The consumer's exact deduplication. */
  function Commit(committed: seq<MessageID>, id: MessageID): seq<MessageID> {
    if id in committed then committed else committed + [id]
  }

  predicate Enabled(s: System, e: Event) {
    match e
    case PublishUpdate(id) => id != NONE
    case Connect => true
    case Disconnect => true
    case SendUpdate => Connected(s)
    case SendHeartbeat(id) => Connected(s) && id != NONE && s.agent.awaitingHeartbeat == NONE
    case Deliver(l, outcome) => l < |s.links| && s.links[l].open && s.links[l].toController != []
    case TakeAck(reply) => Connected(s) && s.links[s.current.value].toAgent != []
  }

  predicate Connected(s: System) {
    s.current.Some? && s.current.value < |s.links|
  }

  function Transmit(s: System, w: Wire): seq<Link>
    requires Connected(s)
  {
    var l := s.links[s.current.value];
    s.links[s.current.value := l.(toController := l.toController + [w])]
  }

  function Step(s: System, e: Event): System
    requires Enabled(s, e)
  {
    match e
    case PublishUpdate(id) =>
      s.(agent := Publish(s.agent, id),
         published := if id in s.agent.outbox then s.published else s.published + [id])
    case Connect =>
      s.(agent := Loop(s.agent.outbox, NONE, NONE),
         current := Some(|s.links|),
         links := s.links + [Link([], [], true)])
    case Disconnect => s.(current := None)
    case SendUpdate =>
      if Sendable(s.agent).Some? then
        s.(agent := SendHead(s.agent), links := Transmit(s, Update(Sendable(s.agent).value)))
      else s
    case SendHeartbeat(id) =>
      s.(agent := s.agent.(awaitingHeartbeat := id), links := Transmit(s, Heartbeat(id)))
    case Deliver(l, outcome) =>
      var link := s.links[l];
      var message := link.toController[0];
      var rest := link.(toController := link.toController[1..]);
      var answered := rest.(toAgent := rest.toAgent + [Ack(message.id, message.Update?)]);
      s.(links := s.links[l := if outcome.Answered? then answered else rest.(open := false)],
         committed := if message.Update? && !outcome.Rejected? then Commit(s.committed, message.id) else s.committed)
    case TakeAck(reply) =>
      var link := s.links[s.current.value];
      var (agent, verdict) := ReceiveAck(s.agent, link.toAgent[0].id, reply);
      s.(agent := agent,
         removed := if agent.outbox == s.agent.outbox then s.removed else s.removed + 1,
         links := s.links[s.current.value := link.(toAgent := link.toAgent[1..])],
         current := if verdict.Mismatch? || verdict.Degraded? then None else s.current)
  }

  predicate Initial(s: System) {
    s == System([], 0, Loop([], NONE, NONE), None, [], [])
  }

  ghost predicate IsRun(states: seq<System>, events: seq<Event>) {
    && |states| == |events| + 1
    && Initial(states[0])
    && forall i :: 0 <= i < |events| ==> Enabled(states[i], events[i]) && states[i + 1] == Step(states[i], events[i])
  }

  // ------------------------------------------------------- exact duplicates

  /** A publication order with its exact duplicates dropped. */
  function FirstOccurrences(s: seq<MessageID>): seq<MessageID> {
    if s == [] then [] else Commit(FirstOccurrences(s[..|s| - 1]), s[|s| - 1])
  }

  lemma {:induction false} FirstOccurrencesMembers(s: seq<MessageID>, id: MessageID)
    ensures id in FirstOccurrences(s) <==> id in s
  {
    if s != [] {
      FirstOccurrencesMembers(s[..|s| - 1], id);
      assert s == s[..|s| - 1] + [s[|s| - 1]];
    }
  }

  lemma {:induction false} FirstOccurrencesOfPrefix(s: seq<MessageID>, k: nat)
    requires k <= |s|
    ensures FirstOccurrences(s[..k]) <= FirstOccurrences(s)
  {
    if k < |s| {
      FirstOccurrencesOfPrefix(s[..|s| - 1], k);
      assert s[..|s| - 1][..k] == s[..k];
    } else {
      assert s[..k] == s;
    }
  }

  ghost predicate Distinct(s: seq<MessageID>) {
    forall i, j :: 0 <= i < j < |s| ==> s[i] != s[j]
  }

  lemma {:induction false} FirstOccurrencesOfDistinct(s: seq<MessageID>)
    requires Distinct(s)
    ensures FirstOccurrences(s) == s
  {
    if s != [] {
      FirstOccurrencesOfDistinct(s[..|s| - 1]);
    }
  }

  lemma FirstOccurrencesNext(s: seq<MessageID>, k: nat)
    requires k < |s|
    ensures FirstOccurrences(s[..k + 1]) == Commit(FirstOccurrences(s[..k]), s[k])
  {
    assert s[..k + 1][..k] == s[..k];
  }

  // --------------------------------------------------------------- invariant

  /** How many messages of one kind the Controller has still to read, and how many
      acknowledgements of that kind the Agent has. */
  function Out(wires: seq<Wire>, updates: bool): nat {
    if wires == [] then 0 else (if wires[0].Update? == updates then 1 else 0) + Out(wires[1..], updates)
  }

  function Back(acks: seq<Ack>, updates: bool): nat {
    if acks == [] then 0 else (if acks[0].forUpdate == updates then 1 else 0) + Back(acks[1..], updates)
  }

  lemma {:induction false} OutAppend(wires: seq<Wire>, w: Wire, updates: bool)
    ensures Out(wires + [w], updates) == Out(wires, updates) + (if w.Update? == updates then 1 else 0)
  {
    if wires != [] {
      OutAppend(wires[1..], w, updates);
      assert (wires + [w])[1..] == wires[1..] + [w];
    }
  }

  lemma {:induction false} BackAppend(acks: seq<Ack>, a: Ack, updates: bool)
    ensures Back(acks + [a], updates) == Back(acks, updates) + (if a.forUpdate == updates then 1 else 0)
  {
    if acks != [] {
      BackAppend(acks[1..], a, updates);
      assert (acks + [a])[1..] == acks[1..] + [a];
    }
  }

  lemma {:induction false} NoneOut(wires: seq<Wire>, updates: bool)
    requires Out(wires, updates) == 0
    ensures forall w :: w in wires ==> w.Update? != updates
  {
    if wires != [] {
      NoneOut(wires[1..], updates);
    }
  }

  lemma {:induction false} NoneBack(acks: seq<Ack>, updates: bool)
    requires Back(acks, updates) == 0
    ensures forall a :: a in acks ==> a.forUpdate != updates
  {
    if acks != [] {
      NoneBack(acks[1..], updates);
    }
  }

  /** The update was removed from the outbox, or it is the row at its head. */
  predicate SentBefore(s: System, id: MessageID)
    requires s.removed <= |s.published|
  {
    id in s.published[..s.removed] || (s.removed < |s.published| && id == s.published[s.removed])
  }

  ghost predicate OutboxIsSuffix(s: System) {
    && s.removed <= |s.published|
    && s.agent.outbox == s.published[s.removed..]
    && Distinct(s.agent.outbox)
    && NONE !in s.published
  }

  /** The Controller has committed everything removed, and at most the outbox head besides. */
  ghost predicate CommittedUpToHead(s: System)
    requires s.removed <= |s.published|
  {
    || s.committed == FirstOccurrences(s.published[..s.removed])
    || (s.removed < |s.published| && s.committed == FirstOccurrences(s.published[..s.removed + 1]))
  }

  ghost predicate LinkSound(s: System, l: Link)
    requires s.removed <= |s.published|
  {
    && (forall w :: w in l.toController && w.Update? ==> SentBefore(s, w.id))
    && (forall a :: a in l.toAgent && a.forUpdate ==> a.id in s.committed)
  }

  /** On one link, everything of one kind under way is the awaited message, and there is at most one. */
  ghost predicate StopAndWait(l: Link, updates: bool, awaited: MessageID) {
    && (forall w :: w in l.toController && w.Update? == updates ==> w.id == awaited)
    && (forall a :: a in l.toAgent && a.forUpdate == updates ==> a.id == awaited)
    && Out(l.toController, updates) + Back(l.toAgent, updates) <= (if awaited == NONE then 0 else 1)
  }

  ghost predicate CurrentSound(s: System)
    requires Connected(s)
  {
    && (s.agent.awaitingUpdate != NONE ==> s.agent.outbox != [] && s.agent.awaitingUpdate == s.agent.outbox[0])
    && StopAndWait(s.links[s.current.value], true, s.agent.awaitingUpdate)
    && StopAndWait(s.links[s.current.value], false, s.agent.awaitingHeartbeat)
  }

  ghost predicate Inv(s: System) {
    && OutboxIsSuffix(s)
    && CommittedUpToHead(s)
    && (forall l :: l in s.links ==> LinkSound(s, l))
    && (s.current.Some? ==> Connected(s) && CurrentSound(s))
  }

  lemma PublishKeepsInv(s: System, id: MessageID)
    requires Inv(s) && id != NONE
    ensures Inv(Step(s, PublishUpdate(id)))
  {
    var s' := Step(s, PublishUpdate(id));
    if id !in s.agent.outbox {
      assert s'.published[..s.removed] == s.published[..s.removed];
      if s.removed < |s.published| {
        assert s'.published[..s.removed + 1] == s.published[..s.removed + 1];
      }
      forall l | l in s'.links ensures LinkSound(s', l) {
        assert LinkSound(s, l);
      }
    }
  }

  lemma ConnectKeepsInv(s: System)
    requires Inv(s)
    ensures Inv(Step(s, Connect)) && Inv(Step(s, Disconnect))
  {
    var s' := Step(s, Connect);
    forall l | l in s'.links ensures LinkSound(s', l) {
      if l in s.links {
        assert LinkSound(s, l);
      }
    }
    var s'' := Step(s, Disconnect);
    forall l | l in s''.links ensures LinkSound(s'', l) {
      assert LinkSound(s, l);
    }
  }

  /** Sending is the only way a kind gains a message, and only when none is awaited. */
  lemma SendKeepsStopAndWait(l: Link, w: Wire, updates: bool, awaited: MessageID)
    requires StopAndWait(l, updates, awaited)
    requires w.Update? == updates ==> awaited == NONE && w.id != NONE
    ensures StopAndWait(l.(toController := l.toController + [w]), updates, if w.Update? == updates then w.id else awaited)
  {
    OutAppend(l.toController, w, updates);
    if w.Update? == updates {
      NoneOut(l.toController, updates);
      NoneBack(l.toAgent, updates);
    }
  }

  lemma AnswerKeepsStopAndWait(l: Link, updates: bool, awaited: MessageID)
    requires StopAndWait(l, updates, awaited) && l.toController != []
    ensures var w := l.toController[0];
      && StopAndWait(Link(l.toController[1..], l.toAgent + [Ack(w.id, w.Update?)], l.open), updates, awaited)
      && StopAndWait(Link(l.toController[1..], l.toAgent, false), updates, awaited)
  {
    var w := l.toController[0];
    assert w in l.toController;
    assert forall v :: v in l.toController[1..] ==> v in l.toController;
    BackAppend(l.toAgent, Ack(w.id, w.Update?), updates);
  }

  /** Reading an acknowledgement of the awaited message leaves nothing of its kind under way. */
  lemma ReadKeepsStopAndWait(l: Link, updates: bool, awaited: MessageID)
    requires StopAndWait(l, updates, awaited) && l.toAgent != []
    ensures StopAndWait(l.(toAgent := l.toAgent[1..]), updates, if l.toAgent[0].forUpdate == updates then NONE else awaited)
  {
    var rest := l.(toAgent := l.toAgent[1..]);
    assert forall b :: b in rest.toAgent ==> b in l.toAgent;
    if l.toAgent[0].forUpdate == updates {
      NoneOut(rest.toController, updates);
      NoneBack(rest.toAgent, updates);
    }
  }

  lemma SendKeepsInv(s: System, e: Event)
    requires Inv(s) && Enabled(s, e) && (e.SendUpdate? || e.SendHeartbeat?)
    ensures Inv(Step(s, e))
  {
    var s' := Step(s, e);
    var c := s.current.value;
    if s' != s {
      var w := if e.SendUpdate? then Update(s.agent.outbox[0]) else Heartbeat(e.id);
      assert s.agent.outbox != [] ==> s.agent.outbox[0] in s.published;
      SendKeepsStopAndWait(s.links[c], w, true, s.agent.awaitingUpdate);
      SendKeepsStopAndWait(s.links[c], w, false, s.agent.awaitingHeartbeat);
      forall i | 0 <= i < |s'.links| ensures LinkSound(s', s'.links[i]) {
        assert LinkSound(s, s.links[i]);
      }
    }
  }

  /** A late or repeated delivery is already committed; a new one is the outbox head. */
  lemma CommitExtendsPrefix(s: System, id: MessageID)
    requires Inv(s) && SentBefore(s, id)
    ensures CommittedUpToHead(s.(committed := Commit(s.committed, id)))
    ensures id in Commit(s.committed, id)
  {
    if id !in s.committed {
      FirstOccurrencesMembers(s.published[..s.removed], id);
      if s.removed < |s.published| {
        FirstOccurrencesMembers(s.published[..s.removed + 1], id);
        FirstOccurrencesNext(s.published, s.removed);
        assert s.published[..s.removed + 1] == s.published[..s.removed] + [s.published[s.removed]];
      }
    }
  }

  lemma DeliverKeepsInv(s: System, l: nat, outcome: Outcome)
    requires Inv(s) && Enabled(s, Deliver(l, outcome))
    ensures Inv(Step(s, Deliver(l, outcome)))
  {
    var s' := Step(s, Deliver(l, outcome));
    var link := s.links[l];
    var message := link.toController[0];
    assert message in link.toController && LinkSound(s, link);
    if message.Update? {
      CommitExtendsPrefix(s, message.id);
    }
    if Connected(s) && s.current.value == l {
      AnswerKeepsStopAndWait(link, true, s.agent.awaitingUpdate);
      AnswerKeepsStopAndWait(link, false, s.agent.awaitingHeartbeat);
    }
    forall i | 0 <= i < |s'.links| ensures LinkSound(s', s'.links[i]) {
      assert LinkSound(s, s.links[i]);
    }
  }

  /** What removes the head acknowledged that very row. */
  lemma RemovalWasAcknowledged(s: System, reply: StoreReply)
    requires Inv(s) && Enabled(s, TakeAck(reply))
    ensures var a := s.links[s.current.value].toAgent[0];
      Step(s, TakeAck(reply)).removed != s.removed ==>
        s.agent.outbox != [] && a.forUpdate && a.id == s.agent.outbox[0] && a.id in s.committed
  {
    var link := s.links[s.current.value];
    assert link.toAgent[0] in link.toAgent && LinkSound(s, link);
    hide CommittedUpToHead, Out, Back;
  }

  /** A row leaves the outbox only when the message at its head has been committed. */
  lemma TakeAckKeepsPrefix(s: System, reply: StoreReply)
    requires Inv(s) && Enabled(s, TakeAck(reply))
    ensures var t := Step(s, TakeAck(reply));
      s.removed <= t.removed && OutboxIsSuffix(t) && CommittedUpToHead(t)
  {
    RemovalWasAcknowledged(s, reply);
    hide StopAndWait, LinkSound;
    var t := Step(s, TakeAck(reply));
    if t.removed != s.removed {
      assert t.agent.outbox == s.agent.outbox[1..] == t.published[t.removed..];
      FirstOccurrencesMembers(s.published[..s.removed], s.agent.outbox[0]);
      FirstOccurrencesNext(s.published, s.removed);
      assert s.published[..t.removed] == s.published[..s.removed] + [s.published[s.removed]];
    }
  }

  lemma TakeAckKeepsLinks(s: System, reply: StoreReply)
    requires Inv(s) && Enabled(s, TakeAck(reply))
    ensures var t := Step(s, TakeAck(reply));
      t.removed <= |t.published| && forall l :: l in t.links ==> LinkSound(t, l)
  {
    TakeAckKeepsPrefix(s, reply);
    hide StopAndWait, CommittedUpToHead;
    var t := Step(s, TakeAck(reply));
    forall i | 0 <= i < |t.links| ensures LinkSound(t, t.links[i]) {
      assert LinkSound(s, s.links[i]);
      assert forall b :: b in t.links[i].toAgent ==> b in s.links[i].toAgent;
    }
  }

  /** Only an acknowledgement of the awaited update is taken for one. */
  lemma TakeAckKeepsInv(s: System, reply: StoreReply)
    requires Inv(s) && Enabled(s, TakeAck(reply))
    ensures Inv(Step(s, TakeAck(reply)))
  {
    TakeAckKeepsPrefix(s, reply);
    TakeAckKeepsLinks(s, reply);
    var link := s.links[s.current.value];
    ReadKeepsStopAndWait(link, true, s.agent.awaitingUpdate);
    ReadKeepsStopAndWait(link, false, s.agent.awaitingHeartbeat);
    hide StopAndWait, LinkSound, CommittedUpToHead, Distinct;
  }

  lemma StepKeepsInv(s: System, e: Event)
    requires Inv(s) && Enabled(s, e)
    ensures Inv(Step(s, e))
  {
    hide Step, Inv;
    match e
    case PublishUpdate(id) => PublishKeepsInv(s, id);
    case Connect => ConnectKeepsInv(s);
    case Disconnect => ConnectKeepsInv(s);
    case SendUpdate => SendKeepsInv(s, e);
    case SendHeartbeat(id) => SendKeepsInv(s, e);
    case Deliver(l, outcome) => DeliverKeepsInv(s, l, outcome);
    case TakeAck(reply) => TakeAckKeepsInv(s, reply);
  }

  lemma {:induction false} RunKeepsInv(states: seq<System>, events: seq<Event>, i: nat)
    requires IsRun(states, events) && i < |states|
    ensures Inv(states[i])
  {
    if i > 0 {
      hide Step, Inv;
      RunKeepsInv(states, events, i - 1);
      StepKeepsInv(states[i - 1], events[i - 1]);
    }
  }

  // ---------------------------------------------------------------- theorems

  /** What the Controller has committed is always a prefix of the Agent's publication
      order with exact duplicates dropped: nothing is skipped, reordered or invented. */
  lemma CommittedIsPublicationPrefix(states: seq<System>, events: seq<Event>, i: nat)
    requires IsRun(states, events) && i < |states|
    ensures states[i].committed <= FirstOccurrences(states[i].published)
  {
    RunKeepsInv(states, events, i);
    var s := states[i];
    FirstOccurrencesOfPrefix(s.published, s.removed);
    if s.removed < |s.published| {
      FirstOccurrencesOfPrefix(s.published, s.removed + 1);
    }
  }

  /** The outbox holds exactly the publications not yet removed, in order, and every
      removed one was committed by the Controller. */
  lemma RemovedOnlyAfterCommit(states: seq<System>, events: seq<Event>, i: nat)
    requires IsRun(states, events) && i < |states|
    ensures var s := states[i];
      && s.removed <= |s.published|
      && s.agent.outbox == s.published[s.removed..]
      && forall x :: 0 <= x < s.removed ==> s.published[x] in s.committed
  {
    RunKeepsInv(states, events, i);
    var s := states[i];
    forall x | 0 <= x < s.removed
      ensures s.published[x] in s.committed
    {
      assert s.published[x] == s.published[..s.removed][x];
      FirstOccurrencesMembers(s.published[..s.removed], s.published[x]);
      if s.removed < |s.published| {
        assert s.published[x] == s.published[..s.removed + 1][x];
        FirstOccurrencesMembers(s.published[..s.removed + 1], s.published[x]);
      }
    }
  }

  /** When no message ID is ever published twice, the commits are the publications
      themselves: those removed, and at most the outbox head besides. */
  lemma DistinctPublicationsCommittedInOrder(states: seq<System>, events: seq<Event>, i: nat)
    requires IsRun(states, events) && i < |states| && Distinct(states[i].published)
    ensures states[i].committed <= states[i].published
    ensures states[i].removed <= |states[i].committed| <= states[i].removed + 1
  {
    RunKeepsInv(states, events, i);
    var s := states[i];
    FirstOccurrencesOfDistinct(s.published[..s.removed]);
    if s.removed < |s.published| {
      FirstOccurrencesOfDistinct(s.published[..s.removed + 1]);
    }
  }

  // ------------------------------------------------------------ ordinary delivery

  /** An idle session sends the oldest row that is left, and waits for it; a waiting session
      and one without rows send nothing. */
  lemma SessionSendsOldestRow(states: seq<System>, events: seq<Event>, i: nat)
    requires IsRun(states, events) && i < |events| && events[i].SendUpdate?
    ensures var s, t := states[i], states[i + 1];
      var c := s.current.value;
      && Connected(s)
      && (if s.agent.awaitingUpdate == NONE && s.removed < |s.published| then
            && t.links[c].toController == s.links[c].toController + [Update(s.published[s.removed])]
            && t.agent == Loop(s.agent.outbox, s.published[s.removed], s.agent.awaitingHeartbeat)
          else t == s)
  {
    RunKeepsInv(states, events, i);
    assert Enabled(states[i], events[i]) && states[i + 1] == Step(states[i], events[i]);
    hide CommittedUpToHead, LinkSound, CurrentSound, Distinct;
  }

  /** An acknowledgement under way is for the awaited message of its kind. One of an update
      removes the oldest row and lets the session go on, if the outbox says so; one of a
      heartbeat only ends that wait; where the two messages share an identifier it ends the
      session. */
  lemma AcknowledgementMovesOn(states: seq<System>, events: seq<Event>, i: nat, reply: StoreReply)
    requires IsRun(states, events) && i < |events| && events[i] == TakeAck(reply)
    ensures var s, t := states[i], states[i + 1];
      && Connected(s) && s.links[s.current.value].toAgent != []
      && var a := s.links[s.current.value].toAgent[0];
      && a.id == (if a.forUpdate then s.agent.awaitingUpdate else s.agent.awaitingHeartbeat)
      && (if s.agent.awaitingUpdate == s.agent.awaitingHeartbeat then t.agent == s.agent && t.current.None?
          else if !a.forUpdate then t.agent == s.agent.(awaitingHeartbeat := NONE) && t.current == s.current
          else
            && s.agent.outbox != []
            && (reply.Deleted? ==> t.agent == Loop(s.agent.outbox[1..], NONE, s.agent.awaitingHeartbeat) && t.current == s.current)
            && (reply.Refused? ==> t.agent == s.agent && t.current.None?)
            && (reply.DeletedButFailed? ==> t.agent == s.agent.(outbox := s.agent.outbox[1..]) && t.current.None?))
      && (var verdict := ReceiveAck(s.agent, a.id, reply).1;
          && (verdict == HeartbeatConfirmed <==> !a.forUpdate && s.agent.awaitingUpdate != a.id)
          && (verdict == UpdateAcknowledged <==> a.forUpdate && s.agent.awaitingHeartbeat != a.id && reply.Deleted?))
  {
    RunKeepsInv(states, events, i);
    var s := states[i];
    assert Enabled(s, events[i]) && states[i + 1] == Step(s, events[i]);
    assert s.links[s.current.value].toAgent[0] in s.links[s.current.value].toAgent;
    NothingAwaited(s);
    hide CommittedUpToHead, LinkSound, Distinct;
  }

  /** While nothing of a kind is awaited, no acknowledgement of it is under way. */
  lemma NothingAwaited(s: System)
    requires Inv(s) && Connected(s)
    ensures forall a :: a in s.links[s.current.value].toAgent ==> a.id != NONE
  {
    var acks := s.links[s.current.value].toAgent;
    if s.agent.awaitingUpdate == NONE { NoneBack(acks, true); }
    if s.agent.awaitingHeartbeat == NONE { NoneBack(acks, false); }
    hide CommittedUpToHead, LinkSound, Distinct;
  }

  /** Only the row with this identifier goes; the others stay in their order. */
  lemma {:induction false} OnlyItsRowGoes(outbox: seq<MessageID>, id: MessageID, i: nat)
    requires Distinct(outbox) && i < |outbox| && outbox[i] == id
    ensures Without(outbox, id) == outbox[..i] + outbox[i + 1..]
    ensures id !in Without(outbox, id)
  {
    if i > 0 {
      OnlyItsRowGoes(outbox[1..], id, i - 1);
      assert outbox == [outbox[0]] + outbox[1..];
      assert outbox[1..][..i - 1] == outbox[1..i];
    }
  }

  ghost predicate Follows(states: seq<System>, events: seq<Event>) {
    && |states| == |events| + 1
    && forall i :: 0 <= i < |events| ==> Enabled(states[i], events[i]) && states[i + 1] == Step(states[i], events[i])
  }

  /** On a new session the oldest row is sent, committed, acknowledged and removed. */
  lemma OldestRowIsDelivered(s: System) returns (t: System)
    requires Inv(s) && s.agent.outbox != []
    ensures Inv(t) && t.published == s.published && t.agent.outbox == s.agent.outbox[1..]
    ensures s.agent.outbox[0] in t.committed
    ensures exists states: seq<System> :: Delivers(states, |s.links|) && states[0] == s && states[4] == t
  {
    assert s.agent.outbox[0] in s.published;
    hide Inv, Step, Enabled;
    var states := DeliverySteps(s);
    var c := |s.links|;
    StepKeepsInv(states[0], Connect);
    StepKeepsInv(states[1], SendUpdate);
    StepKeepsInv(states[2], Deliver(c, Answered));
    StepKeepsInv(states[3], TakeAck(Deleted));
    t := states[4];
  }

  lemma DeliverySteps(s: System) returns (states: seq<System>)
    requires s.agent.outbox != [] && s.agent.outbox[0] != NONE
    ensures Delivers(states, |s.links|) && states[0] == s
    ensures Enabled(states[0], Connect) && states[1] == Step(states[0], Connect)
    ensures Enabled(states[1], SendUpdate) && states[2] == Step(states[1], SendUpdate)
    ensures Enabled(states[2], Deliver(|s.links|, Answered)) && states[3] == Step(states[2], Deliver(|s.links|, Answered))
    ensures Enabled(states[3], TakeAck(Deleted)) && states[4] == Step(states[3], TakeAck(Deleted))
    ensures states[4].published == s.published && states[4].agent.outbox == s.agent.outbox[1..]
    ensures s.agent.outbox[0] in states[4].committed
  {
    var c, id := |s.links|, s.agent.outbox[0];
    var a := Step(s, Connect);
    assert a.links[c] == Link([], [], true);
    var b := Step(a, SendUpdate);
    assert b.links[c] == Link([Update(id)], [], true) && b.agent == Loop(s.agent.outbox, id, NONE);
    var d := Step(b, Deliver(c, Answered));
    assert d.links[c] == Link([], [Ack(id, true)], true) && d.agent == b.agent && id in d.committed;
    states := [s, a, b, d, Step(d, TakeAck(Deleted))];
  }

  ghost predicate Delivers(states: seq<System>, c: nat) {
    |states| == 5 && Follows(states, [Connect, SendUpdate, Deliver(c, Answered), TakeAck(Deleted)])
  }

  /** Whatever was lost before, one working session at a time empties the outbox, and then
      everything published is committed. */
  lemma {:induction false} OutboxDrains(s: System) returns (states: seq<System>, events: seq<Event>)
    requires Inv(s)
    ensures Follows(states, events) && states[0] == s
    ensures var last := states[|events|];
      && last.agent.outbox == [] && last.published == s.published
      && forall id :: id in s.published ==> id in last.committed
    decreases |s.agent.outbox|
  {
    if s.agent.outbox == [] {
      states, events := [s], [];
      assert s.removed == |s.published| && s.published[..s.removed] == s.published;
      forall id | id in s.published ensures id in s.committed { FirstOccurrencesMembers(s.published, id); }
    } else {
      var t := OldestRowIsDelivered(s);
      hide Inv, Step, Enabled;
      var first: seq<System> :| Delivers(first, |s.links|) && first[0] == s && first[4] == t;
      var rest, more := OutboxDrains(t);
      var cycle := [Connect, SendUpdate, Deliver(|s.links|, Answered), TakeAck(Deleted)];
      states, events := first[..4] + rest, cycle + more;
      forall i | 0 <= i < |events| ensures Enabled(states[i], events[i]) && states[i + 1] == Step(states[i], events[i]) {
        if i < 4 {
          assert states[i] == first[i] && states[i + 1] == first[i + 1] && events[i] == cycle[i];
        } else {
          assert states[i] == rest[i - 4] && states[i + 1] == rest[i - 3] && events[i] == more[i - 4];
        }
      }
      assert states[|events|] == rest[|more|];
    }
  }
}
