/** The invalidation bus and the server-sent event stream that reads it
    (internal/api/server.go). Each subscriber has a one-slot channel; a full slot absorbs
    further publications. */
module EventStream {
  import opened Common

  type StreamID = nat

  /** A Go uint64. */
  type Generation = g: nat | g <= MAX_UINT64

  function NextGeneration(g: Generation): Generation {
    if g == MAX_UINT64 then 0 else g + 1
  }

  /** `subs` tells whether a token is queued in the subscriber's slot. */
  datatype Bus = Bus(generation: Generation, subs: map<StreamID, bool>)

  function Publish(b: Bus): Bus {
    Bus(NextGeneration(b.generation), map s | s in b.subs :: true)
  }

  function Subscribe(b: Bus, s: StreamID): Bus {
    b.(subs := b.subs[s := false])
  }

  function Unsubscribe(b: Bus, s: StreamID): Bus {
    b.(subs := b.subs - {s})
  }

  function Receive(b: Bus, s: StreamID): Bus {
    if s in b.subs then b.(subs := b.subs[s := false]) else b
  }

  class EventBus {
    var generation: Generation
    var subs: map<StreamID, bool>

    ghost function View(): Bus
      reads this
    {
      Bus(generation, subs)
    }

    constructor ()
      ensures View() == Bus(0, map[])
    {
      generation, subs := 0, map[];
    }

    /** A send that finds the slot full is dropped, so publishing never waits. */
    method PublishInvalidation()
      modifies this
      ensures View() == Publish(old(View()))
    {
      generation := if generation == MAX_UINT64 then 0 else generation + 1;
      var pending := subs.Keys;
      while pending != {}
        invariant generation == NextGeneration(old(generation))
        invariant pending <= subs.Keys == old(subs).Keys
        invariant forall s :: s in subs && s !in pending ==> subs[s]
        decreases |pending|
      {
        var s :| s in pending;
        pending := pending - {s};
        if !subs[s] { subs := subs[s := true]; }
      }
      assert subs == Publish(old(View())).subs;
    }

    method SubscribeStream(s: StreamID) returns (g: Generation)
      modifies this`subs
      ensures View() == Subscribe(old(View()), s) && g == generation
    {
      subs := subs[s := false];
      g := generation;
    }

    method UnsubscribeStream(s: StreamID)
      modifies this`subs
      ensures View() == Unsubscribe(old(View()), s)
    {
      subs := subs - {s};
    }

    /** The stream's receive: possible only while a token is queued. */
    method ReceiveToken(s: StreamID)
      requires s in subs && subs[s]
      modifies this`subs
      ensures View() == Receive(old(View()), s)
    {
      subs := subs[s := false];
    }
  }

  // ------------------------------------------------------------------- machine

  /** A stream between its steps. Revision and generation are read one after the other,
      and anything can happen in between. */
  datatype Stage =
    | Subscribed(generation: Generation)
    | RevisionRead(revision: nat, generation: Generation)
    | Waiting(revision: nat, generation: Generation)
    | Received
    | Refreshed(revision: nat)
    | Ended

  /** `announced` is the highest revision whose publication has happened. */
  datatype State = State(bus: Bus, revision: nat, announced: nat, streams: map<StreamID, Stage>)

  datatype Event =
    | Commit
    | Announce(revision: nat)
    | Open(s: StreamID)
    | Advance(s: StreamID)
    | End(s: StreamID)

  predicate Initial(x: State) {
    x == State(Bus(0, map[]), x.revision, 0, map[])
  }

  /** A committer publishes after its own revision is durable. A waiting stream moves only
      when a token is queued. */
  predicate Enabled(x: State, e: Event) {
    match e
    case Commit => true
    case Announce(r) => r <= x.revision
    case Open(s) => s !in x.streams
    case Advance(s) =>
      s in x.streams && !x.streams[s].Ended? && (x.streams[s].Waiting? ==> s in x.bus.subs && x.bus.subs[s])
    case End(s) => s in x.streams && !x.streams[s].Ended?
  }

  function Step(x: State, e: Event): State {
    match e
    case Commit => x.(revision := x.revision + 1)
    case Announce(r) => x.(bus := Publish(x.bus), announced := if r > x.announced then r else x.announced)
    case Open(s) => x.(bus := Subscribe(x.bus, s), streams := x.streams[s := Subscribed(x.bus.generation)])
    case End(s) => x.(bus := Unsubscribe(x.bus, s), streams := x.streams[s := Ended])
    case Advance(s) =>
      if s !in x.streams then x
      else
        match x.streams[s]
        case Subscribed(g) => x.(streams := x.streams[s := RevisionRead(x.revision, g)])
        case RevisionRead(r, g) => x.(streams := x.streams[s := Waiting(r, g)])
        case Waiting(_, _) => x.(bus := Receive(x.bus, s), streams := x.streams[s := Received])
        case Received => x.(streams := x.streams[s := Refreshed(x.revision)])
        case Refreshed(r) => x.(streams := x.streams[s := Waiting(r, x.bus.generation)])
        case Ended => x
  }

  ghost predicate IsRun(states: seq<State>, events: seq<Event>) {
    && |states| == |events| + 1
    && Initial(states[0])
    && forall i :: 0 <= i < |events| ==> Enabled(states[i], events[i]) && states[i + 1] == Step(states[i], events[i])
  }

  // ----------------------------------------------------------------- invariant

  predicate Queued(x: State, s: StreamID) {
    s in x.bus.subs && x.bus.subs[s]
  }

  /** Either a token will wake the stream, or what it holds is up to date. */
  predicate UpToDate(x: State, s: StreamID, stage: Stage) {
    match stage
    case Subscribed(g) => Queued(x, s) || g == x.bus.generation
    case RevisionRead(r, g) => Queued(x, s) || (g == x.bus.generation && r >= x.announced)
    case Waiting(r, g) => Queued(x, s) || (g == x.bus.generation && r >= x.announced)
    case Received => true
    case Refreshed(r) => Queued(x, s) || r >= x.announced
    case Ended => s !in x.bus.subs
  }

  ghost predicate Inv(x: State) {
    && x.announced <= x.revision
    && (forall s :: s in x.streams && !x.streams[s].Ended? ==> s in x.bus.subs)
    && (forall s :: s in x.streams ==> UpToDate(x, s, x.streams[s]))
  }

  lemma StepKeepsInv(x: State, e: Event)
    requires Inv(x) && Enabled(x, e)
    ensures Inv(Step(x, e))
  {
  }

  lemma {:induction false} RunKeepsInv(states: seq<State>, events: seq<Event>, i: nat)
    requires IsRun(states, events) && i < |states|
    ensures Inv(states[i])
  {
    hide Step, Enabled;
    if i > 0 {
      RunKeepsInv(states, events, i - 1);
      hide Inv;
      StepKeepsInv(states[i - 1], events[i - 1]);
    }
  }

  /** No invalidation is lost: a waiting stream has a token queued, or its last cursor
      carries the current generation and at least the newest announced revision. */
  lemma NoInvalidationIsLost(states: seq<State>, events: seq<Event>, i: nat, s: StreamID)
    requires IsRun(states, events) && i < |states|
    requires s in states[i].streams && states[i].streams[s].Waiting?
    requires !Queued(states[i], s)
    ensures states[i].streams[s].generation == states[i].bus.generation
    ensures states[i].streams[s].revision >= states[i].announced
  {
    RunKeepsInv(states, events, i);
    assert UpToDate(states[i], s, states[i].streams[s]);
  }

  /** A stream that was woken and not interrupted waits again with the present revision
      and generation, and an empty slot. */
  lemma WokenStreamCatchesUp(x: State, s: StreamID)
    requires s in x.streams && x.streams[s].Waiting? && Queued(x, s)
    ensures var y := Step(Step(Step(x, Advance(s)), Advance(s)), Advance(s));
      y.streams[s] == Waiting(x.revision, x.bus.generation) && !Queued(y, s)
  {
  }

  /** A publication between the stream's two reads leaves a token behind, so a cursor that
      joins the older revision to the newer generation is followed by another. */
  lemma PublicationBetweenReadsIsQueued(x: State, s: StreamID, r: nat)
    requires Inv(x) && s in x.streams && x.streams[s].Refreshed? && r <= x.revision
    ensures var y := Step(Step(x, Announce(r)), Advance(s));
      y.streams[s] == Waiting(x.streams[s].revision, NextGeneration(x.bus.generation)) && Queued(y, s)
  {
  }

  /** How many publications happened before state i. */
  function Publications(events: seq<Event>, i: nat): nat
    requires i <= |events|
  {
    if i == 0 then 0 else Publications(events, i - 1) + (if events[i - 1].Announce? then 1 else 0)
  }

  /** The generation counts the publications modulo 2^64, so it differs from every earlier
      one unless 2^64 publications lie between. */
  lemma {:induction false} GenerationCountsPublications(states: seq<State>, events: seq<Event>, i: nat)
    requires IsRun(states, events) && i < |states|
    ensures states[i].bus.generation == Publications(events, i) % (MAX_UINT64 + 1)
  {
    if i > 0 {
      GenerationCountsPublications(states, events, i - 1);
      assert states[i] == Step(states[i - 1], events[i - 1]);
    }
  }

  /** `announced` is the highest revision published so far, and the revision counts the
      commits. */
  lemma {:induction false} AnnouncedIsHighest(states: seq<State>, events: seq<Event>, i: nat)
    requires IsRun(states, events) && i < |states|
    ensures forall k :: 0 <= k < i && events[k].Announce? ==> events[k].revision <= states[i].announced
    ensures states[i].announced == 0 || exists k :: 0 <= k < i && events[k] == Announce(states[i].announced)
    ensures i > 0 ==> states[i].revision == states[i - 1].revision + (if events[i - 1].Commit? then 1 else 0)
  {
    if i > 0 {
      AnnouncedIsHighest(states, events, i - 1);
      assert states[i] == Step(states[i - 1], events[i - 1]);
    }
  }

  /** The event takes the token out of the stream's slot. */
  predicate Takes(x: State, e: Event, s: StreamID) {
    e == Advance(s) && s in x.streams && x.streams[s].Waiting?
  }

  /** A publication reached the stream's slot and was not taken since. */
  ghost predicate AnnouncedSince(states: seq<State>, events: seq<Event>, i: nat, s: StreamID)
    requires |states| == |events| + 1 && i < |states|
  {
    exists k :: 0 <= k < i && events[k].Announce? && s in states[k].streams && forall j :: k < j < i ==> !Takes(states[j], events[j], s)
  }

  lemma StepMovesToken(x: State, e: Event, s: StreamID)
    requires Inv(x) && Enabled(x, e) && s in Step(x, e).streams && !Step(x, e).streams[s].Ended?
    ensures s in x.streams ==> !x.streams[s].Ended?
    ensures Queued(Step(x, e), s) <==> s in x.streams && (e.Announce? || (Queued(x, s) && !Takes(x, e, s)))
  {
  }

  /** A live stream has a token queued exactly when something was published since it was
      opened and since it last took one. */
  lemma {:induction false} TokenMeansPublication(states: seq<State>, events: seq<Event>, i: nat, s: StreamID)
    requires IsRun(states, events) && i < |states| && s in states[i].streams && !states[i].streams[s].Ended?
    ensures Queued(states[i], s) <==> AnnouncedSince(states, events, i, s)
  {
    hide Step, Enabled, Queued, Takes;
    assert i > 0;
    RunKeepsInv(states, events, i - 1);
    hide Inv;
    var x, e := states[i - 1], events[i - 1];
    assert Enabled(x, e) && states[i] == Step(x, e);
    StepMovesToken(x, e, s);
    if s in x.streams {
      TokenMeansPublication(states, events, i - 1, s);
      if AnnouncedSince(states, events, i, s) {
        var k :| 0 <= k < i && events[k].Announce? && s in states[k].streams && forall j :: k < j < i ==> !Takes(states[j], events[j], s);
        if k < i - 1 { assert AnnouncedSince(states, events, i - 1, s); }
      }
      if AnnouncedSince(states, events, i - 1, s) && !Takes(x, e, s) {
        var k :| 0 <= k < i - 1 && events[k].Announce? && s in states[k].streams &&
          forall j :: k < j < i - 1 ==> !Takes(states[j], events[j], s);
        assert AnnouncedSince(states, events, i, s);
      }
      if e.Announce? { assert AnnouncedSince(states, events, i, s); }
    } else {
      forall k | 0 <= k < i ensures s !in states[k].streams { StreamsStay(states, events, k, i - 1, s); }
    }
  }

  lemma {:induction false} StreamsStay(states: seq<State>, events: seq<Event>, k: nat, i: nat, s: StreamID)
    requires IsRun(states, events) && k <= i < |states| && s !in states[i].streams
    ensures s !in states[k].streams
    decreases i
  {
    if k < i {
      assert Enabled(states[i - 1], events[i - 1]) && states[i] == Step(states[i - 1], events[i - 1]);
      StreamsStay(states, events, k, i - 1, s);
    }
  }

  /** A stream that is opened and not interrupted waits at the present revision and
      generation with an empty slot; no other stream notices. */
  lemma OpenedStreamWaits(x: State, s: StreamID, t: StreamID)
    requires s !in x.streams && t != s
    ensures var y := Step(Step(Step(x, Open(s)), Advance(s)), Advance(s));
      && y.streams == x.streams[s := Waiting(x.revision, x.bus.generation)] && !Queued(y, s)
      && (Queued(y, t) <==> Queued(x, t)) && y.bus.generation == x.bus.generation
      && y.revision == x.revision && y.announced == x.announced
  {
  }
}
