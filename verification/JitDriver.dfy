/** The Controller's just-in-time runner driver for one job claim: acquire, prepare,
    generate and start, and the reconciliation of an attempt whose outcome is unknown
    (internal/app/controller_runner.go).

    The durable store is seen through the compare-and-swap contract of its interface.
    Every call outside the process consumes one reply of a script. A call may fail
    before or after it took effect, and the process stops where the script ends, so a
    crash can fall between any two calls. The journal records, in order, every durable
    attempt state and every external effect. */
module JitDriver {
  import opened Common

  datatype AttemptState =
    | Intent | GenerationAmbiguous | Generated | StartDispatching | StartAmbiguous
    | AgentAccepted | Started | RemovalPending | ReconciledAbsent

  datatype ClaimState =
    | ClaimPending | AcquireAmbiguous | Acquired | Preparing | PrepareFailed
    | ClaimIntent | ClaimGenerationAmbiguous | ClaimGenerated | ClaimStartDispatching | ClaimStartAmbiguous
    | ClaimRunning | ReconciliationRequired

  const NO_COMMAND := ""

  /** runnerID 0 and NO_COMMAND stand for an identity GitHub has not issued yet. */
  datatype Attempt = Attempt(epoch: nat, state: AttemptState, runnerID: nat, startCommand: string)

  datatype Entry =
    | AcquireRecorded(k: nat)
    | AcquireSent(k: nat)
    | Recorded(n: nat, state: AttemptState)
    | GenerateCalled(n: nat)
    | StartSent(n: nat)
    | RunnerRemoved(n: nat)

  /** `acquires` numbers the current acquire attempt; `requeue` is a committed
      unpicked-requeue intent for the current JIT attempt. */
  datatype World = World(
    offered: bool,
    epoch: nat,
    claim: ClaimState,
    acquires: nat,
    acquireReady: bool,
    current: nat,
    attempts: map<nat, Attempt>,
    requeue: bool,
    journal: seq<Entry>)

  /** NotUsable: the peer answered, but not with what was asked for. DoneLate: the
      commit found the execution already past Running. */
  datatype Reply = Done | Failed | FailedAfter | NotUsable | DoneLate

  type Script = seq<Reply>

  predicate Replies(s: Script, k: nat) {
    k < |s| && s[k].Done?
  }

  // ------------------------------------------------------------ store contract

  datatype Commit = Commit(world: World, ok: bool)

  /** A transaction whose guard holds: it may fail before or after committing. */
  function Committing(before: World, after: World, guard: bool, r: Reply): Commit {
    if !guard || r.Failed? || r.NotUsable? then Commit(before, false)
    else Commit(after, r.Done? || r.DoneLate?)
  }

  predicate ClaimMatches(claim: ClaimState, state: AttemptState) {
    match state
    case Intent => claim.ClaimIntent?
    case GenerationAmbiguous => claim.ClaimGenerationAmbiguous?
    case Generated => claim.ClaimGenerated?
    case StartDispatching => claim.ClaimStartDispatching?
    case StartAmbiguous => claim.ClaimStartAmbiguous?
    case Started => claim.ClaimRunning? || claim.ReconciliationRequired?
    case AgentAccepted => claim.ReconciliationRequired?
    case RemovalPending => claim.ReconciliationRequired?
    case ReconciledAbsent => claim.Preparing? || claim.ReconciliationRequired?
  }

  /** The current attempt, in one of the expected states and consistent with its claim. */
  predicate CurrentIn(w: World, expected: set<AttemptState>) {
    && w.current in w.attempts
    && w.attempts[w.current].state in expected
    && ClaimMatches(w.claim, w.attempts[w.current].state)
  }

  function Rewrite(w: World, a: Attempt, claim: ClaimState): World {
    w.(attempts := w.attempts[w.current := a], claim := claim, journal := w.journal + [Recorded(w.current, a.state)])
  }

  function Move(w: World, state: AttemptState, claim: ClaimState): World
    requires w.current in w.attempts
  {
    Rewrite(w, w.attempts[w.current].(state := state), claim)
  }

  /** A transition of the owning process: same epoch, one expected state. */
  function Transition(w: World, from: AttemptState, to: AttemptState, claim: ClaimState, r: Reply): Commit {
    if CurrentIn(w, {from}) && w.attempts[w.current].epoch == w.epoch then
      Committing(w, Move(w, to, claim), true, r)
    else Commit(w, false)
  }

  /** BeginGitHubJITAttempt: a new attempt only from Preparing; otherwise the existing
      one is reported as replayed. */
  function Begin(w: World, r: Reply): Commit {
    Committing(w,
      w.(claim := ClaimIntent, current := w.current + 1,
         attempts := w.attempts[w.current + 1 := Attempt(w.epoch, Intent, 0, NO_COMMAND)],
         journal := w.journal + [Recorded(w.current + 1, Intent)]),
      w.claim.Preparing?, r)
  }

  function MarkGenerated(w: World, runnerID: nat, command: string, r: Reply): Commit {
    if CurrentIn(w, {Intent}) && w.attempts[w.current].epoch == w.epoch then
      Committing(w, Rewrite(w, Attempt(w.epoch, Generated, runnerID, command), ClaimGenerated), true, r)
    else Commit(w, false)
  }

  function BeginAcquire(w: World, r: Reply): Commit {
    Committing(w,
      w.(claim := AcquireAmbiguous, acquireReady := false, journal := w.journal + [AcquireRecorded(w.acquires)]),
      w.claim.ClaimPending? && w.acquireReady, r)
  }

  /** Reconciliation writes need a later epoch, or a committed requeue intent. */
  predicate MayReconcile(w: World) {
    w.current in w.attempts &&
    (w.epoch > w.attempts[w.current].epoch || (w.epoch == w.attempts[w.current].epoch && w.requeue))
  }

  function MarkStarted(w: World, r: Reply): Commit {
    if CurrentIn(w, {StartDispatching, StartAmbiguous, AgentAccepted, Started}) && w.epoch > w.attempts[w.current].epoch then
      Committing(w, Move(w, Started, if r.DoneLate? then ReconciliationRequired else ClaimRunning), true, r)
    else Commit(w, false)
  }

  function MarkAgentAccepted(w: World, r: Reply): Commit {
    if CurrentIn(w, {StartDispatching, StartAmbiguous, AgentAccepted}) && w.epoch > w.attempts[w.current].epoch then
      Committing(w, Move(w, AgentAccepted, ReconciliationRequired), true, r)
    else Commit(w, false)
  }

  /** An attempt already pending removal keeps its state. */
  function MarkRemovalPending(w: World, runnerID: nat, r: Reply): Commit {
    if CurrentIn(w, Unresolved()) && MayReconcile(w) then
      if w.attempts[w.current].state.RemovalPending? then Committing(w, w, true, r)
      else
        var a := w.attempts[w.current];
        var id := if a.state.Intent? || a.state.GenerationAmbiguous? then runnerID else a.runnerID;
        Committing(w, Rewrite(w, a.(state := RemovalPending, runnerID := id), ReconciliationRequired), true, r)
    else Commit(w, false)
  }

  /** What becomes of the claim once its attempt is proven absent. */
  datatype Aftermath = Retry | Dormant | Replace | PickedUp

  /** Absence is committed only after the store's own confirmation interval; until then
      it answers that absence is pending, here Failed. */
  function MarkReconciledAbsent(w: World, aftermath: Aftermath, r: Reply): Commit {
    if CurrentIn(w, {Intent, GenerationAmbiguous, RemovalPending}) && MayReconcile(w) then
      var claim := match aftermath
        case Retry => Preparing
        case Dormant => ReconciliationRequired
        case Replace => ClaimPending
        case PickedUp => ClaimRunning;
      var after := Rewrite(w, Attempt(w.attempts[w.current].epoch, ReconciledAbsent, 0, NO_COMMAND), claim).(
        requeue := false,
        acquires := if aftermath.Replace? then w.acquires + 1 else w.acquires,
        acquireReady := aftermath.Replace? || w.acquireReady);
      Committing(w, after, true, r)
    else Commit(w, false)
  }

  function Unresolved(): set<AttemptState> {
    {Intent, GenerationAmbiguous, Generated, StartDispatching, StartAmbiguous, AgentAccepted, Started, RemovalPending}
  }

  function Effect(w: World, e: Entry): World {
    w.(journal := w.journal + [e])
  }

  // ------------------------------------------------------------------- acquire

  /** Replies: admission, BeginGitHubAcquire, fence, AcquireJobs, MarkGitHubAcquired, fence. */
  function Acquire(w: World, s: Script, k: nat): Commit {
    if !w.offered || !Replies(s, k) || |s| <= k + 1 then Commit(w, false)
    else
      var begun := BeginAcquire(w, s[k + 1]);
      if !begun.ok || !Replies(s, k + 2) then Commit(begun.world, false)
      else SendAcquire(begun.world, s, k + 3)
  }

  function SendAcquire(w: World, s: Script, k: nat): Commit {
    if |s| <= k then Commit(w, false)
    else
      var sent := Effect(w, AcquireSent(w.acquires));
      if !s[k].Done? || |s| <= k + 1 then Commit(sent, false)
      else
        var acquired := Committing(sent, sent.(claim := Acquired), sent.claim.AcquireAmbiguous?, s[k + 1]);
        Commit(acquired.world, acquired.ok && Replies(s, k + 2))
  }

  // ------------------------------------------------------------------- prepare

  /** Replies: admission, SendPrepare, the store's mark. Prepare carries no secret and is
      exactly idempotent, so it needs no durable intent. */
  function Prepare(w: World, s: Script, k: nat): Commit {
    if !Replies(s, k) || |s| <= k + 2 || s[k + 1].Failed? || s[k + 1].FailedAfter? then Commit(w, false)
    else if s[k + 1].Done? then Committing(w, w.(claim := Preparing), w.claim.Acquired?, s[k + 2])
    else Commit(Committing(w, w.(claim := PrepareFailed), w.claim.Acquired?, s[k + 2]).world, false)
  }

  // -------------------------------------------------------- generate and start

  /** What the provider issued for this attempt. */
  datatype Issued = Issued(runnerID: nat, command: string)

  /** Replies: admission, BeginGitHubJITAttempt, fence. */
  function GenerateAndStart(w: World, jit: Issued, s: Script, k: nat): World {
    if !Replies(s, k) || |s| <= k + 1 then w
    else
      var begun := Begin(w, s[k + 1]);
      if !begun.ok || !Replies(s, k + 2) then begun.world
      else Generate(begun.world, jit, s, k + 3)
  }

  /** Replies: GenerateJITConfig, the store's mark, fence. */
  function Generate(w: World, jit: Issued, s: Script, k: nat): World {
    if |s| <= k then w
    else
      var called := Effect(w, GenerateCalled(w.current));
      if |s| <= k + 1 then called
      else if !s[k].Done? then
        Transition(called, Intent, GenerationAmbiguous, ClaimGenerationAmbiguous, s[k + 1]).world
      else
        var generated := MarkGenerated(called, jit.runnerID, jit.command, s[k + 1]);
        if !generated.ok || !Replies(s, k + 2) then generated.world
        else Dispatch(generated.world, s, k + 3)
  }

  /** Replies: BeginGitHubStartDispatch, fence, SendStart, the store's mark. */
  function Dispatch(w: World, s: Script, k: nat): World {
    if |s| <= k then w
    else
      var dispatching := Transition(w, Generated, StartDispatching, ClaimStartDispatching, s[k]);
      if !dispatching.ok || !Replies(s, k + 1) || |s| <= k + 2 then dispatching.world
      else
        var sent := Effect(dispatching.world, StartSent(w.current));
        if |s| <= k + 3 then sent
        else if s[k + 2].Done? then
          var claim := if s[k + 3].DoneLate? then ReconciliationRequired else ClaimRunning;
          Transition(sent, StartDispatching, Started, claim, s[k + 3]).world
        else Transition(sent, StartDispatching, StartAmbiguous, ClaimStartAmbiguous, s[k + 3]).world
  }

  // ----------------------------------------------------------------- reconcile

  datatype Acceptance = NotAccepted | AcceptedByAgent | Contradictory

  datatype Observation = ObservedPreparing | ObservedActive | ObservedTerminal | ObservedOther

  datatype History = NoHistory | StartedHistory | LostTerminalHistory | OtherHistory

  datatype Query = QueryFailed | NoRunner | RunnerFound(id: nat) | WrongRunner

  /** What one reconciliation pass reads: the node's snapshot, its history, the provider. */
  datatype Evidence = Evidence(
    online: bool,
    requeueCurrent: bool,
    history: History,
    observation: Option<Observation>,
    startUnproven: bool,
    acceptance: Acceptance,
    identityCurrent: bool,
    query: Query,
    pickupProven: bool,
    aftermath: Aftermath)

  datatype Resolution = Hold | ConfirmAccepted | AwaitObservation | Remove(id: nat) | MarkAbsent | Invalid

  /** ResolveGitHubFence: exact start authority first, then the provider's answer. */
  function Resolve(a: Attempt, acceptance: Acceptance, query: Option<Query>): Resolution {
    if a.startCommand != NO_COMMAND && acceptance.Contradictory? then Invalid
    else if a.startCommand != NO_COMMAND && (a.state.AgentAccepted? || a.state.Started?) then AwaitObservation
    else if a.startCommand != NO_COMMAND && acceptance.AcceptedByAgent? then
      if a.state.RemovalPending? then Invalid else ConfirmAccepted
    else
      match query
      case None => Hold
      case Some(QueryFailed) => Hold
      case Some(NoRunner) => MarkAbsent
      case Some(WrongRunner) => Invalid
      case Some(RunnerFound(id)) => if id == 0 || (a.runnerID > 0 && id != a.runnerID) then Invalid else Remove(id)
  }

  predicate MayHaveAcceptedStart(state: AttemptState) {
    state.StartDispatching? || state.StartAmbiguous? || state.AgentAccepted? || state.Started?
  }

  /** Replies: the pruned-history check. */
  function Reconcile(w: World, e: Evidence, s: Script, k: nat): World {
    if w.current !in w.attempts || (w.requeue && !e.requeueCurrent) || !MayReconcile(w) ||
      w.attempts[w.current].state !in Unresolved() || !e.online
    then w
    else
      var a := w.attempts[w.current];
      if !w.requeue && MayHaveAcceptedStart(a.state) && a.startCommand != NO_COMMAND then
        if |s| <= k || e.history.OtherHistory? then w
        else if e.history.StartedHistory? then MarkStarted(w, s[k]).world
        else if !s[k].Done? then w
        else ReconcileTerminal(w, e, e.history.LostTerminalHistory?, s, k + 1)
      else ReconcileTerminal(w, e, false, s, k)
  }

  /** Replies: MarkGitHubJITObservedStarted for a terminal observation. */
  function ReconcileTerminal(w: World, e: Evidence, lost: bool, s: Script, k: nat): World
    requires w.current in w.attempts
  {
    var a := w.attempts[w.current];
    if !w.requeue && e.observation == Some(ObservedTerminal) && a.startCommand != NO_COMMAND && !lost then
      if |s| <= k then w
      else if e.startUnproven then ReconcileProvider(w, e, true, s, k + 1)
      else MarkStarted(w, s[k]).world
    else if w.requeue || lost then ReconcileProvider(w, e, true, s, k)
    else ReconcileAgent(w, e, s, k)
  }

  /** The Agent's own evidence decides before the provider is asked. */
  function ReconcileAgent(w: World, e: Evidence, s: Script, k: nat): World
    requires w.current in w.attempts
  {
    match Resolve(w.attempts[w.current], e.acceptance, None)
    case Invalid => w
    case AwaitObservation =>
      if |s| > k && e.observation == Some(ObservedActive) then MarkStarted(w, s[k]).world else w
    case ConfirmAccepted =>
      if |s| <= k then w
      else if e.observation == Some(ObservedActive) then MarkStarted(w, s[k]).world
      else MarkAgentAccepted(w, s[k]).world
    case _ =>
      if e.observation.Some? && e.observation.value != ObservedPreparing then w
      else ReconcileProvider(w, e, false, s, k)
  }

  /** Replies: session generation, QueryRunner. `cleanup` skips the Agent's evidence. */
  function ReconcileProvider(w: World, e: Evidence, cleanup: bool, s: Script, k: nat): World
    requires w.current in w.attempts
  {
    if !e.identityCurrent || !Replies(s, k) || !Replies(s, k + 1) then w
    else
      var a := w.attempts[w.current];
      var resolution :=
        if !cleanup then Resolve(a, e.acceptance, Some(e.query))
        else if e.query.NoRunner? then MarkAbsent
        else if e.query == RunnerFound(a.runnerID) then Remove(a.runnerID)
        else Hold;
      match resolution
      case MarkAbsent => ReconcileAbsence(w, e, s, k + 2)
      case Remove(id) => if w.requeue && e.pickupProven then w else ReconcileRemoval(w, id, s, k + 2)
      case _ => w
  }

  /** A runner that was issued an identity is absent only on a later pass than the one
      that recorded its removal. */
  function ReconcileAbsence(w: World, e: Evidence, s: Script, k: nat): World
    requires w.current in w.attempts
  {
    var a := w.attempts[w.current];
    if |s| <= k then w
    else if a.runnerID == 0 || a.state.RemovalPending? then MarkReconciledAbsent(w, e.aftermath, s[k]).world
    else MarkRemovalPending(w, a.runnerID, s[k]).world
  }

  /** Replies: MarkGitHubJITRemovalPending, fence, RemoveRunner. */
  function ReconcileRemoval(w: World, id: nat, s: Script, k: nat): World {
    if |s| <= k then w
    else
      var pending := MarkRemovalPending(w, id, s[k]);
      if !pending.ok || !Replies(s, k + 1) || |s| <= k + 2 then pending.world
      else Effect(pending.world, RunnerRemoved(w.current))
  }

  // ---------------------------------------------------------------- drive next

  /** A durable ambiguity: NextGitHubReconciliationFence finds this claim. */
  predicate Fenced(w: World) {
    match w.claim
    case AcquireAmbiguous => true
    case ClaimIntent => true
    case ClaimGenerationAmbiguous => true
    case ClaimGenerated => true
    case ClaimStartDispatching => true
    case ClaimStartAmbiguous => true
    case ReconciliationRequired =>
      !(w.current in w.attempts && w.attempts[w.current].state.ReconciledAbsent?)
    case _ => false
  }

  function DriveNext(w: World, e: Evidence, jit: Issued, s: Script): World {
    if !Replies(s, 0) then w
    else if Fenced(w) then (if w.claim.AcquireAmbiguous? then w else Reconcile(w, e, s, 1))
    else
      match w.claim
      case ClaimPending =>
        var acquired := Acquire(w, s, 1);
        if acquired.ok then PrepareAndStart(acquired.world, jit, s, 7) else acquired.world
      case Acquired => PrepareAndStart(w, jit, s, 1)
      case Preparing => GenerateAndStart(w, jit, s, 1)
      case _ => w
  }

  function PrepareAndStart(w: World, jit: Issued, s: Script, k: nat): World {
    var prepared := Prepare(w, s, k);
    if prepared.ok then GenerateAndStart(prepared.world, jit, s, k + 3) else prepared.world
  }

  // --------------------------------------------------------------------- moves

  /** Everything that can happen to a claim: a drive with any replies, a restart, and the
      queue messages that re-arm it. */
  datatype MoveKind =
    | Drive(e: Evidence, jit: Issued, s: Script)
    | Restart
    | RearmAcquire
    | RearmLostJit
    | RequeueUnpicked

  function Perform(w: World, m: MoveKind): World {
    match m
    case Drive(e, jit, s) => DriveNext(w, e, jit, s)
    case Restart => w.(epoch := w.epoch + 1)
    case RearmAcquire =>
      if w.claim.AcquireAmbiguous? then w.(claim := ClaimPending, acquires := w.acquires + 1, acquireReady := true) else w
    case RearmLostJit =>
      if CurrentIn(w, {ReconciledAbsent}) && w.claim.ReconciliationRequired? then
        w.(claim := ClaimPending, acquires := w.acquires + 1, acquireReady := true)
      else w
    case RequeueUnpicked =>
      if CurrentIn(w, {Started}) then w.(claim := ReconciliationRequired, requeue := true) else w
  }

  /** A claim as a queue message or assigned demand creates it. */
  predicate Created(w: World) {
    w == World(w.offered, w.epoch, if w.offered then ClaimPending else Acquired, 1, w.offered, 0, map[], false, [])
  }

  ghost predicate IsRun(worlds: seq<World>, moves: seq<MoveKind>) {
    && |worlds| == |moves| + 1
    && Created(worlds[0])
    && forall i :: 0 <= i < |moves| ==> worlds[i + 1] == Perform(worlds[i], moves[i])
  }

  // ------------------------------------------------------------- the coordinator

  /** The coordinator's own steps: it consumes one reply for each call it makes, in
      order, and updates the claim's durable rows between calls. */
  class Coordinator {
    var durable: World
    const replies: Script
    var next: nat

    constructor (durable: World, replies: Script)
      ensures this.durable == durable && this.replies == replies && next == 0
    {
      this.durable := durable;
      this.replies := replies;
      next := 0;
    }

    /** The reply to the next call, or None where the process stops. */
    method Call() returns (r: Option<Reply>)
      modifies this`next
      ensures next == old(next) + 1
      ensures r == if old(next) < |replies| then Some(replies[old(next)]) else None
    {
      r := if next < |replies| then Some(replies[next]) else None;
      next := next + 1;
    }

    /** Whether the next call succeeds. */
    method Succeeds() returns (ok: bool)
      modifies this`next
      ensures next == old(next) + 1
      ensures ok == Replies(replies, old(next))
    {
      var r := Call();
      ok := r == Some(Done);
    }

    method AcquireClaim() returns (ok: bool)
      modifies this
      ensures Commit(durable, ok) == Acquire(old(durable), replies, old(next))
      ensures ok ==> next == old(next) + 6
    {
      if !durable.offered { return false; }
      var admitted := Succeeds();
      if !admitted { return false; }
      var r := Call();
      if r.None? { return false; }
      var begun := BeginAcquire(durable, r.value);
      durable := begun.world;
      if !begun.ok { return false; }
      var fenced := Succeeds();
      if !fenced { return false; }
      r := Call();
      if r.None? { return false; }
      durable := Effect(durable, AcquireSent(durable.acquires));
      if !r.value.Done? { return false; }
      r := Call();
      if r.None? { return false; }
      var acquired := Committing(durable, durable.(claim := Acquired), durable.claim.AcquireAmbiguous?, r.value);
      durable := acquired.world;
      if !acquired.ok { return false; }
      ok := Succeeds();
    }

    method PrepareClaim() returns (ok: bool)
      modifies this
      ensures Commit(durable, ok) == Prepare(old(durable), replies, old(next))
      ensures ok ==> next == old(next) + 3
    {
      var admitted := Succeeds();
      if !admitted { return false; }
      var answer := Call();
      var mark := Call();
      if answer.None? || mark.None? || answer.value.Failed? || answer.value.FailedAfter? { return false; }
      var to := if answer.value.Done? then Preparing else PrepareFailed;
      var marked := Committing(durable, durable.(claim := to), durable.claim.Acquired?, mark.value);
      durable := marked.world;
      ok := marked.ok && answer.value.Done?;
    }

    method GenerateAndStartClaim(jit: Issued)
      modifies this
      ensures durable == GenerateAndStart(old(durable), jit, replies, old(next))
    {
      var admitted := Succeeds();
      if !admitted { return; }
      var r := Call();
      if r.None? { return; }
      var begun := Begin(durable, r.value);
      durable := begun.world;
      if !begun.ok { return; }
      var fenced := Succeeds();
      if fenced { GenerateClaim(jit); }
    }

    method GenerateClaim(jit: Issued)
      modifies this
      ensures durable == Generate(old(durable), jit, replies, old(next))
    {
      var answer := Call();
      if answer.None? { return; }
      durable := Effect(durable, GenerateCalled(durable.current));
      var mark := Call();
      if mark.None? { return; }
      if !answer.value.Done? {
        var ambiguous := Transition(durable, Intent, GenerationAmbiguous, ClaimGenerationAmbiguous, mark.value);
        durable := ambiguous.world;
        return;
      }
      var generated := MarkGenerated(durable, jit.runnerID, jit.command, mark.value);
      durable := generated.world;
      if !generated.ok { return; }
      var fenced := Succeeds();
      if fenced { DispatchStart(); }
    }

    method DispatchStart()
      modifies this
      ensures durable == Dispatch(old(durable), replies, old(next))
    {
      var mark := Call();
      if mark.None? { return; }
      var dispatching := Transition(durable, Generated, StartDispatching, ClaimStartDispatching, mark.value);
      durable := dispatching.world;
      if !dispatching.ok { return; }
      var fenced := Succeeds();
      if !fenced { return; }
      var answer := Call();
      if answer.None? { return; }
      durable := Effect(durable, StartSent(durable.current));
      mark := Call();
      if mark.None? { return; }
      if answer.value.Done? {
        var claim := if mark.value.DoneLate? then ReconciliationRequired else ClaimRunning;
        durable := Transition(durable, StartDispatching, Started, claim, mark.value).world;
      } else {
        durable := Transition(durable, StartDispatching, StartAmbiguous, ClaimStartAmbiguous, mark.value).world;
      }
    }

    /** Removing the provider's runner: the intent first, then the call. */
    method RemoveProviderRunner(id: nat)
      modifies this
      ensures durable == ReconcileRemoval(old(durable), id, replies, old(next))
    {
      var n := durable.current;
      var mark := Call();
      if mark.None? { return; }
      var pending := MarkRemovalPending(durable, id, mark.value);
      durable := pending.world;
      if !pending.ok { return; }
      var fenced := Succeeds();
      if !fenced { return; }
      var answer := Call();
      if answer.Some? { durable := Effect(durable, RunnerRemoved(n)); }
    }

    /** The provider's answer decides what the Agent's evidence left open. */
    method ReconcileWithProvider(e: Evidence, cleanup: bool)
      requires durable.current in durable.attempts
      modifies this
      ensures durable == ReconcileProvider(old(durable), e, cleanup, replies, old(next))
    {
      if !e.identityCurrent { return; }
      var healthy := Succeeds();
      if !healthy { return; }
      var answered := Succeeds();
      if !answered { return; }
      var a := durable.attempts[durable.current];
      var resolution := Hold;
      if !cleanup {
        resolution := Resolve(a, e.acceptance, Some(e.query));
      } else if e.query.NoRunner? {
        resolution := MarkAbsent;
      } else if e.query == RunnerFound(a.runnerID) {
        resolution := Remove(a.runnerID);
      }
      match resolution {
        case MarkAbsent =>
          var mark := Call();
          if mark.None? { return; }
          if a.runnerID == 0 || a.state.RemovalPending? {
            durable := MarkReconciledAbsent(durable, e.aftermath, mark.value).world;
          } else {
            durable := MarkRemovalPending(durable, a.runnerID, mark.value).world;
          }
        case Remove(id) =>
          if durable.requeue && e.pickupProven { return; }
          RemoveProviderRunner(id);
        case _ =>
      }
    }

    /** The one path that permits a later attempt. */
    method ReconcileAttempt(e: Evidence)
      modifies this
      ensures durable == Reconcile(old(durable), e, replies, old(next))
    {
      if durable.current !in durable.attempts || (durable.requeue && !e.requeueCurrent) ||
        !MayReconcile(durable) || durable.attempts[durable.current].state !in Unresolved() || !e.online
      {
        return;
      }
      var a := durable.attempts[durable.current];
      var lost := false;
      if !durable.requeue && MayHaveAcceptedStart(a.state) && a.startCommand != NO_COMMAND {
        var history := Call();
        if history.None? || e.history.OtherHistory? { return; }
        if e.history.StartedHistory? {
          durable := MarkStarted(durable, history.value).world;
          return;
        }
        if !history.value.Done? { return; }
        lost := e.history.LostTerminalHistory?;
      }
      if !durable.requeue && e.observation == Some(ObservedTerminal) && a.startCommand != NO_COMMAND && !lost {
        var mark := Call();
        if mark.None? { return; }
        if !e.startUnproven {
          durable := MarkStarted(durable, mark.value).world;
          return;
        }
        lost := true;
      }
      if durable.requeue || lost {
        ReconcileWithProvider(e, true);
      } else {
        ReconcileWithAgent(e);
      }
    }

    method ReconcileWithAgent(e: Evidence)
      requires durable.current in durable.attempts
      modifies this
      ensures durable == ReconcileAgent(old(durable), e, replies, old(next))
    {
      var resolution := Resolve(durable.attempts[durable.current], e.acceptance, None);
      if resolution.Invalid? { return; }
      if resolution.ConfirmAccepted? || resolution.AwaitObservation? {
        var mark := Call();
        if mark.None? { return; }
        if e.observation == Some(ObservedActive) {
          durable := MarkStarted(durable, mark.value).world;
        } else if resolution.ConfirmAccepted? {
          durable := MarkAgentAccepted(durable, mark.value).world;
        }
        return;
      }
      if e.observation.None? || e.observation == Some(ObservedPreparing) {
        ReconcileWithProvider(e, false);
      }
    }

    /** One scheduling pass: a fenced claim is only reconciled, any other goes forward. */
    method Drive(e: Evidence, jit: Issued)
      requires next == 0
      modifies this
      ensures durable == DriveNext(old(durable), e, jit, replies)
    {
      var read := Succeeds();
      if !read { return; }
      if Fenced(durable) {
        if !durable.claim.AcquireAmbiguous? { ReconcileAttempt(e); }
        return;
      }
      if durable.claim.Preparing? {
        GenerateAndStartClaim(jit);
        return;
      }
      if durable.claim.ClaimPending? {
        var acquired := AcquireClaim();
        if !acquired { return; }
      } else if !durable.claim.Acquired? {
        return;
      }
      var prepared := PrepareClaim();
      if prepared { GenerateAndStartClaim(jit); }
    }
  }

  // -------------------------------------------------------- what a journal shows

  /** The attempt is known to have come to an end. */
  predicate KnownAbsent(before: seq<Entry>, n: nat) {
    Recorded(n, ReconciledAbsent) in before
  }

  /** The states on the way to a first start. */
  predicate OnTheWay(s: AttemptState, latest: AttemptState) {
    s == Intent || s == latest || (s == Generated && latest == StartDispatching)
  }

  /** An attempt begins once, and only after its predecessor is known to be absent. */
  ghost predicate MayBegin(before: seq<Entry>, n: nat) {
    && n > 0
    && (n > 1 ==> KnownAbsent(before, n - 1))
    && (forall s :: Recorded(n, s) !in before)
    && GenerateCalled(n) !in before && StartSent(n) !in before && RunnerRemoved(n) !in before
  }

  /** Once GitHub issued its identity, or its start was sent, an attempt is absent only
      after its removal was recorded. */
  ghost predicate MayEnd(before: seq<Entry>, n: nat) {
    && Recorded(n, Intent) in before
    && !KnownAbsent(before, n)
    && (Recorded(n, Generated) in before || StartSent(n) in before ==> Recorded(n, RemovalPending) in before)
  }

  ghost predicate MayGenerate(before: seq<Entry>, n: nat) {
    && Recorded(n, Intent) in before
    && (forall s :: Recorded(n, s) in before ==> OnTheWay(s, Intent))
    && GenerateCalled(n) !in before && StartSent(n) !in before
  }

  ghost predicate MayStart(before: seq<Entry>, n: nat) {
    && Recorded(n, StartDispatching) in before
    && (forall s :: Recorded(n, s) in before ==> OnTheWay(s, StartDispatching))
    && GenerateCalled(n) in before && StartSent(n) !in before
  }

  /** When an entry may follow the entries before it: every effect happens once, after
      its own intent is durable and before any later state of its attempt is, and nothing
      happens to an attempt known to be absent. */
  ghost predicate Justified(before: seq<Entry>, e: Entry) {
    match e
    case AcquireRecorded(k) => AcquireRecorded(k) !in before && AcquireSent(k) !in before
    case AcquireSent(k) => AcquireRecorded(k) in before && AcquireSent(k) !in before
    case Recorded(n, s) =>
      if s == Intent then MayBegin(before, n)
      else if s == ReconciledAbsent then MayEnd(before, n)
      else Recorded(n, Intent) in before && !KnownAbsent(before, n)
    case GenerateCalled(n) => MayGenerate(before, n)
    case StartSent(n) => MayStart(before, n)
    case RunnerRemoved(n) => Recorded(n, RemovalPending) in before && !KnownAbsent(before, n)
  }

  ghost predicate JournalSafe(journal: seq<Entry>) {
    forall i {:trigger journal[..i]} :: 0 <= i < |journal| ==> Justified(journal[..i], journal[i])
  }

  lemma AppendJustified(journal: seq<Entry>, e: Entry)
    requires JournalSafe(journal) && Justified(journal, e)
    ensures JournalSafe(journal + [e])
  {
    hide Justified;
    forall i | 0 <= i < |journal + [e]| ensures Justified((journal + [e])[..i], (journal + [e])[i]) {
      if i < |journal| {
        assert (journal + [e])[..i] == journal[..i];
      } else {
        assert (journal + [e])[..i] == journal;
      }
    }
  }

  /** Only a removal, or the record of a state between intent and absence, can recur. */
  lemma EffectsHappenOnce(journal: seq<Entry>, i: nat, j: nat)
    requires JournalSafe(journal)
    requires i < j < |journal| && journal[i] == journal[j]
    ensures journal[i].RunnerRemoved? || (journal[i].Recorded? && journal[i].state !in {Intent, ReconciledAbsent})
  {
    assert Justified(journal[..j], journal[j]);
    assert journal[..j][i] == journal[j];
  }

  // ----------------------------------------------------------------- invariant

  predicate Open(w: World) {
    w.current > 0 && w.current in w.attempts && !w.attempts[w.current].state.ReconciledAbsent?
  }

  /** Claim states from which a new attempt can still be begun. */
  predicate BeforeAttempt(claim: ClaimState) {
    claim in {ClaimPending, AcquireAmbiguous, Acquired, Preparing, PrepareFailed}
  }

  function AttemptOf(e: Entry): nat {
    match e
    case Recorded(n, _) => n
    case GenerateCalled(n) => n
    case StartSent(n) => n
    case RunnerRemoved(n) => n
    case _ => 0
  }

  /** What the journal holds about an attempt in this state. */
  ghost predicate AttemptInv(journal: seq<Entry>, n: nat, state: AttemptState) {
    && Recorded(n, Intent) in journal && Recorded(n, state) in journal
    && (KnownAbsent(journal, n) <==> state.ReconciledAbsent?)
    && (state in {Intent, GenerationAmbiguous} ==> Recorded(n, Generated) !in journal && StartSent(n) !in journal)
  }

  ghost predicate AcquireInv(w: World) {
    && (forall k: nat :: AcquireRecorded(k) in w.journal ==> k <= w.acquires)
    && (w.acquireReady ==> AcquireRecorded(w.acquires) !in w.journal)
  }

  ghost predicate Inv(w: World) {
    && JournalSafe(w.journal)
    && (forall e :: e in w.journal ==> AttemptOf(e) <= w.current)
    && AcquireInv(w)
    && (w.current > 0 ==> w.current in w.attempts)
    && (forall n :: n in w.attempts ==> 0 < n <= w.current && AttemptInv(w.journal, n, w.attempts[n].state))
    && (Open(w) ==> !BeforeAttempt(w.claim))
  }

  lemma OthersKeepInv(journal: seq<Entry>, e: Entry, n: nat, state: AttemptState)
    requires AttemptInv(journal, n, state) && AttemptOf(e) != n && n > 0
    ensures AttemptInv(journal + [e], n, state)
  {
  }

  // --------------------------------------------------- every store call keeps it

  /** An acquire entry is sent only after it is recorded. */
  lemma SentWasRecorded(w: World, k: nat)
    requires Inv(w) && AcquireSent(k) in w.journal
    ensures AcquireRecorded(k) in w.journal
  {
    var i :| 0 <= i < |w.journal| && w.journal[i] == AcquireSent(k);
    assert Justified(w.journal[..i], w.journal[i]);
  }

  lemma BeginJustified(w: World)
    requires Inv(w) && !Open(w)
    ensures Justified(w.journal, Recorded(w.current + 1, Intent))
  {
    hide JournalSafe;
    assert w.current > 0 ==> KnownAbsent(w.journal, w.current);
    assert MayBegin(w.journal, w.current + 1);
  }

  lemma BeginKeepsInv(w: World, r: Reply)
    requires Inv(w)
    ensures Inv(Begin(w, r).world)
    ensures Begin(w, r).ok ==> Open(Begin(w, r).world)
  {
    hide JournalSafe;
    if w.claim.Preparing? {
      BeginJustified(w);
      var e := Recorded(w.current + 1, Intent);
      assert AttemptInv(w.journal + [e], w.current + 1, Intent);
      AppendJustified(w.journal, e);
      hide Justified, AttemptInv;
      forall n | n in w.attempts ensures AttemptInv(w.journal + [e], n, w.attempts[n].state) {
        OthersKeepInv(w.journal, e, n, w.attempts[n].state);
      }
    }
  }

  lemma BegunIsUntouched(w: World, r: Reply)
    requires Inv(w)
    ensures Begin(w, r).ok ==> Untouched(Begin(w, r).world, Intent)
  {
    assert forall e :: e in w.journal ==> AttemptOf(e) <= w.current;
    hide Inv;
    var n := w.current + 1;
    assert forall s :: AttemptOf(Recorded(n, s)) == n;
    assert AttemptOf(GenerateCalled(n)) == n && AttemptOf(StartSent(n)) == n;
  }

  /** The open attempt has gone straight to `latest`, and its start has not been sent. */
  ghost predicate Untouched(w: World, latest: AttemptState) {
    && (forall s :: Recorded(w.current, s) in w.journal ==> OnTheWay(s, latest))
    && (GenerateCalled(w.current) in w.journal <==> latest != Intent)
    && StartSent(w.current) !in w.journal
  }

  /** Recording a later state of the open attempt. */
  lemma RewriteKeepsInv(w: World, a: Attempt, claim: ClaimState)
    requires Inv(w) && Open(w) && !BeforeAttempt(claim)
    requires a.state != Intent && a.state != ReconciledAbsent
    requires a.state == GenerationAmbiguous ==> w.attempts[w.current].state == Intent
    ensures Inv(Rewrite(w, a, claim)) && Open(Rewrite(w, a, claim))
  {
    hide JournalSafe;
    var e := Recorded(w.current, a.state);
    assert Justified(w.journal, e) && AttemptInv(w.journal + [e], w.current, a.state);
    AppendJustified(w.journal, e);
    hide Justified, AttemptInv;
    forall n | n in w.attempts && n != w.current ensures AttemptInv(w.journal + [e], n, w.attempts[n].state) {
      OthersKeepInv(w.journal, e, n, w.attempts[n].state);
    }
  }

  /** Adding an effect that its journal justifies. */
  lemma EffectKeepsInv(w: World, e: Entry)
    requires Inv(w) && Justified(w.journal, e)
    requires e.GenerateCalled? || e.StartSent? || e.RunnerRemoved? || e.AcquireSent?
    requires AttemptOf(e) <= w.current
    requires e.StartSent? ==> Open(w) && w.attempts[w.current].state !in {Intent, GenerationAmbiguous} && e.n == w.current
    ensures Inv(Effect(w, e))
  {
    hide JournalSafe, Justified;
    AppendJustified(w.journal, e);
  }

  lemma BeginAcquireKeepsInv(w: World, r: Reply)
    requires Inv(w)
    ensures var b := BeginAcquire(w, r);
      && Inv(b.world)
      && (b.ok ==> Justified(b.world.journal, AcquireSent(w.acquires)))
  {
    hide JournalSafe;
    if w.claim.ClaimPending? && w.acquireReady {
      assert AcquireSent(w.acquires) !in w.journal by {
        if AcquireSent(w.acquires) in w.journal { SentWasRecorded(w, w.acquires); }
      }
      assert Justified(w.journal, AcquireRecorded(w.acquires));
      AppendJustified(w.journal, AcquireRecorded(w.acquires));
    }
  }

  lemma AcquireKeepsInv(w: World, s: Script, k: nat)
    requires Inv(w)
    ensures Inv(Acquire(w, s, k).world)
  {
    hide JournalSafe, Justified;
    if w.offered && Replies(s, k) && |s| > k + 1 {
      var begun := BeginAcquire(w, s[k + 1]);
      BeginAcquireKeepsInv(w, s[k + 1]);
      if begun.ok && Replies(s, k + 2) && |s| > k + 3 {
        EffectKeepsInv(begun.world, AcquireSent(w.acquires));
      }
    }
  }

  lemma AbsentKeepsInv(w: World, aftermath: Aftermath, r: Reply)
    requires Inv(w)
    ensures Inv(MarkReconciledAbsent(w, aftermath, r).world)
  {
    hide JournalSafe;
    if CurrentIn(w, {Intent, GenerationAmbiguous, RemovalPending}) {
      var e := Recorded(w.current, ReconciledAbsent);
      assert Justified(w.journal, e) && AttemptInv(w.journal + [e], w.current, ReconciledAbsent);
      AppendJustified(w.journal, e);
      hide Justified, AttemptInv;
      forall n | n in w.attempts && n != w.current ensures AttemptInv(w.journal + [e], n, w.attempts[n].state) {
        OthersKeepInv(w.journal, e, n, w.attempts[n].state);
      }
    }
  }

  lemma CurrentIsOpen(w: World)
    requires Inv(w) && w.current in w.attempts && w.attempts[w.current].state != ReconciledAbsent
    ensures Open(w)
  {
    hide JournalSafe;
  }

  lemma RemovalPendingKeepsInv(w: World, id: nat, r: Reply)
    requires Inv(w)
    ensures Inv(MarkRemovalPending(w, id, r).world)
    ensures var p := MarkRemovalPending(w, id, r);
      p.ok ==> Open(p.world) && p.world.current == w.current && p.world.attempts[w.current].state == RemovalPending
  {
    hide Inv, ClaimMatches;
    if CurrentIn(w, Unresolved()) && MayReconcile(w) {
      CurrentIsOpen(w);
      var a := w.attempts[w.current];
      var to := if a.state.Intent? || a.state.GenerationAmbiguous? then id else a.runnerID;
      RewriteKeepsInv(w, a.(state := RemovalPending, runnerID := to), ReconciliationRequired);
    }
  }

  lemma StartedKeepsInv(w: World, r: Reply)
    requires Inv(w)
    ensures Inv(MarkStarted(w, r).world)
  {
    hide JournalSafe, Justified;
    if CurrentIn(w, {StartDispatching, StartAmbiguous, AgentAccepted, Started}) {
      var a := w.attempts[w.current].(state := Started);
      RewriteKeepsInv(w, a, if r.DoneLate? then ReconciliationRequired else ClaimRunning);
    }
  }

  lemma AcceptedKeepsInv(w: World, r: Reply)
    requires Inv(w)
    ensures Inv(MarkAgentAccepted(w, r).world)
  {
    hide JournalSafe, Justified;
    if CurrentIn(w, {StartDispatching, StartAmbiguous, AgentAccepted}) {
      RewriteKeepsInv(w, w.attempts[w.current].(state := AgentAccepted), ReconciliationRequired);
    }
  }

  // --------------------------------------------------------- the forward path

  /** A transition of the owning process moves the open attempt along. */
  lemma TransitionKeepsInv(w: World, from: AttemptState, to: AttemptState, claim: ClaimState, r: Reply)
    requires Inv(w) && !BeforeAttempt(claim)
    requires to in {GenerationAmbiguous, StartDispatching, StartAmbiguous, Started}
    requires to == GenerationAmbiguous ==> from == Intent
    requires from != ReconciledAbsent
    ensures var t := Transition(w, from, to, claim, r);
      && Inv(t.world)
      && (t.ok ==> t.world == Move(w, to, claim) && Open(w) && Open(t.world))
  {
    if CurrentIn(w, {from}) {
      assert Open(w) by { hide JournalSafe; }
      hide Inv;
      RewriteKeepsInv(w, w.attempts[w.current].(state := to), claim);
    }
  }

  lemma DispatchKeepsInv(w: World, s: Script, k: nat)
    requires Inv(w) && Open(w) && Untouched(w, Generated)
    ensures Inv(Dispatch(w, s, k))
  {
    hide Inv, Transition, ClaimMatches;
    if |s| > k {
      TransitionKeepsInv(w, Generated, StartDispatching, ClaimStartDispatching, s[k]);
      var d := Transition(w, Generated, StartDispatching, ClaimStartDispatching, s[k]);
      if d.ok && Replies(s, k + 1) && |s| > k + 2 {
        assert Untouched(d.world, StartDispatching);
        SendStartKeepsInv(d.world, s, k + 2);
      }
    }
  }

  lemma StartIsJustified(w: World)
    requires Inv(w) && Open(w) && w.attempts[w.current].state == StartDispatching && Untouched(w, StartDispatching)
    ensures Justified(w.journal, StartSent(w.current))
  {
    hide JournalSafe, OnTheWay;
    assert AttemptInv(w.journal, w.current, StartDispatching);
    hide Inv;
    assert MayStart(w.journal, w.current);
  }

  lemma SendStartKeepsInv(w: World, s: Script, k: nat)
    requires Inv(w) && Open(w) && w.attempts[w.current].state == StartDispatching && Untouched(w, StartDispatching)
    requires k < |s|
    ensures var sent := Effect(w, StartSent(w.current));
      && Inv(sent)
      && (k + 1 < |s| ==>
            && Inv(Transition(sent, StartDispatching, Started,
                 if s[k + 1].DoneLate? then ReconciliationRequired else ClaimRunning, s[k + 1]).world)
            && Inv(Transition(sent, StartDispatching, StartAmbiguous, ClaimStartAmbiguous, s[k + 1]).world))
  {
    hide Inv, Untouched, Justified, Transition;
    StartIsJustified(w);
    EffectKeepsInv(w, StartSent(w.current));
    if k + 1 < |s| {
      var sent := Effect(w, StartSent(w.current));
      TransitionKeepsInv(sent, StartDispatching, Started, if s[k + 1].DoneLate? then ReconciliationRequired else ClaimRunning, s[k + 1]);
      TransitionKeepsInv(sent, StartDispatching, StartAmbiguous, ClaimStartAmbiguous, s[k + 1]);
    }
  }

  lemma GeneratedKeepsInv(w: World, jit: Issued, r: Reply)
    requires Inv(w) && Open(w)
    requires forall s :: Recorded(w.current, s) in w.journal ==> s == Intent
    requires GenerateCalled(w.current) in w.journal && StartSent(w.current) !in w.journal
    ensures var g := MarkGenerated(w, jit.runnerID, jit.command, r);
      && Inv(g.world)
      && (g.ok ==> Open(g.world) && Untouched(g.world, Generated))
  {
    hide Inv;
    RewriteKeepsInv(w, Attempt(w.epoch, Generated, jit.runnerID, jit.command), ClaimGenerated);
  }

  lemma GenerateIsJustified(w: World)
    requires Inv(w) && Open(w) && Untouched(w, Intent)
    ensures Justified(w.journal, GenerateCalled(w.current))
  {
    hide JournalSafe, OnTheWay;
    assert AttemptInv(w.journal, w.current, w.attempts[w.current].state);
    hide Inv;
    assert MayGenerate(w.journal, w.current);
  }

  lemma CallKeepsInv(w: World)
    requires Inv(w) && Open(w) && Untouched(w, Intent)
    ensures var called := Effect(w, GenerateCalled(w.current));
      && Inv(called)
      && (forall s :: Recorded(w.current, s) in called.journal ==> s == Intent)
      && StartSent(w.current) !in called.journal
  {
    GenerateIsJustified(w);
    hide Inv, Justified;
    EffectKeepsInv(w, GenerateCalled(w.current));
  }

  lemma GenerateKeepsInv(w: World, jit: Issued, s: Script, k: nat)
    requires Inv(w) && Open(w) && Untouched(w, Intent)
    ensures Inv(Generate(w, jit, s, k))
  {
    hide Inv, Dispatch, Transition, MarkGenerated, Untouched;
    CallKeepsInv(w);
    var called := Effect(w, GenerateCalled(w.current));
    if |s| > k + 1 {
      TransitionKeepsInv(called, Intent, GenerationAmbiguous, ClaimGenerationAmbiguous, s[k + 1]);
      GeneratedKeepsInv(called, jit, s[k + 1]);
      var g := MarkGenerated(called, jit.runnerID, jit.command, s[k + 1]);
      if s[k].Done? && g.ok && Replies(s, k + 2) {
        DispatchKeepsInv(g.world, s, k + 3);
      }
    }
  }

  lemma GenerateAndStartKeepsInv(w: World, jit: Issued, s: Script, k: nat)
    requires Inv(w)
    ensures Inv(GenerateAndStart(w, jit, s, k))
  {
    hide Inv, Generate, Begin, Untouched;
    if Replies(s, k) && |s| > k + 1 {
      BeginKeepsInv(w, s[k + 1]);
      BegunIsUntouched(w, s[k + 1]);
      var begun := Begin(w, s[k + 1]);
      if begun.ok && Replies(s, k + 2) {
        GenerateKeepsInv(begun.world, jit, s, k + 3);
      }
    }
  }

  // -------------------------------------------------------------- reconciliation

  lemma ReconcileProviderKeepsInv(w: World, e: Evidence, cleanup: bool, s: Script, k: nat)
    requires Inv(w) && w.current in w.attempts
    ensures Inv(ReconcileProvider(w, e, cleanup, s, k))
  {
    hide Inv, MarkReconciledAbsent, MarkRemovalPending, ReconcileRemoval;
    var a := w.attempts[w.current];
    if |s| > k + 2 {
      AbsentKeepsInv(w, e.aftermath, s[k + 2]);
      RemovalPendingKeepsInv(w, a.runnerID, s[k + 2]);
    }
    RemovalKeepsInv(w, a.runnerID, s, k + 2);
    if e.query.RunnerFound? {
      RemovalKeepsInv(w, e.query.id, s, k + 2);
    }
  }

  lemma RemovalIsJustified(w: World)
    requires Inv(w) && Open(w) && w.attempts[w.current].state == RemovalPending
    ensures Justified(w.journal, RunnerRemoved(w.current))
  {
    hide JournalSafe;
  }

  lemma RemovalKeepsInv(w: World, id: nat, s: Script, k: nat)
    requires Inv(w)
    ensures Inv(ReconcileRemoval(w, id, s, k))
  {
    hide Inv, Justified, MarkRemovalPending;
    if |s| > k {
      RemovalPendingKeepsInv(w, id, s[k]);
      var pending := MarkRemovalPending(w, id, s[k]);
      if pending.ok {
        RemovalIsJustified(pending.world);
        EffectKeepsInv(pending.world, RunnerRemoved(w.current));
      }
    }
  }

  lemma ReconcileTerminalKeepsInv(w: World, e: Evidence, lost: bool, s: Script, k: nat)
    requires Inv(w) && w.current in w.attempts
    ensures Inv(ReconcileTerminal(w, e, lost, s, k))
  {
    hide Inv, ReconcileProvider, MarkStarted, MarkAgentAccepted, Resolve;
    ReconcileProviderKeepsInv(w, e, true, s, k);
    ReconcileProviderKeepsInv(w, e, true, s, k + 1);
    ReconcileProviderKeepsInv(w, e, false, s, k);
    if |s| > k {
      StartedKeepsInv(w, s[k]);
      AcceptedKeepsInv(w, s[k]);
    }
  }

  lemma ReconcileKeepsInv(w: World, e: Evidence, s: Script, k: nat)
    requires Inv(w)
    ensures Inv(Reconcile(w, e, s, k))
  {
    hide Inv, ReconcileTerminal, MarkStarted;
    if w.current in w.attempts {
      ReconcileTerminalKeepsInv(w, e, false, s, k);
      ReconcileTerminalKeepsInv(w, e, e.history.LostTerminalHistory?, s, k + 1);
      if |s| > k { StartedKeepsInv(w, s[k]); }
    }
  }

  // ------------------------------------------------------------------- every run

  lemma PrepareKeepsInv(w: World, s: Script, k: nat)
    requires Inv(w)
    ensures Inv(Prepare(w, s, k).world)
  {
    hide JournalSafe;
  }

  lemma PrepareAndStartKeepsInv(w: World, jit: Issued, s: Script, k: nat)
    requires Inv(w)
    ensures Inv(PrepareAndStart(w, jit, s, k))
  {
    hide Inv, Prepare, GenerateAndStart;
    PrepareKeepsInv(w, s, k);
    GenerateAndStartKeepsInv(Prepare(w, s, k).world, jit, s, k + 3);
  }

  lemma DriveKeepsInv(w: World, e: Evidence, jit: Issued, s: Script)
    requires Inv(w)
    ensures Inv(DriveNext(w, e, jit, s))
  {
    hide Inv, Reconcile, Acquire, PrepareAndStart, GenerateAndStart;
    ReconcileKeepsInv(w, e, s, 1);
    AcquireKeepsInv(w, s, 1);
    PrepareAndStartKeepsInv(Acquire(w, s, 1).world, jit, s, 7);
    PrepareAndStartKeepsInv(w, jit, s, 1);
    GenerateAndStartKeepsInv(w, jit, s, 1);
  }

  lemma MoveKeepsInv(w: World, m: MoveKind)
    requires Inv(w)
    ensures Inv(Perform(w, m))
  {
    hide JournalSafe;
    if m.Drive? {
      hide Inv, DriveNext;
      DriveKeepsInv(w, m.e, m.jit, m.s);
    }
  }

  lemma {:induction false} RunKeepsInv(worlds: seq<World>, moves: seq<MoveKind>, k: nat)
    requires IsRun(worlds, moves) && k < |worlds|
    ensures Inv(worlds[k])
  {
    hide Perform;
    if k > 0 {
      hide Inv;
      RunKeepsInv(worlds, moves, k - 1);
      MoveKeepsInv(worlds[k - 1], moves[k - 1]);
    }
  }

  // ------------------------------------------------------------------ main results

  /** Whatever fails and wherever the process stops, an effect is never repeated: at most
      one JIT generation and one start for an attempt, one acquire call for an intent. */
  lemma EffectsAreSentOnce(worlds: seq<World>, moves: seq<MoveKind>, k: nat, i: nat, j: nat)
    requires IsRun(worlds, moves) && k < |worlds|
    requires i < |worlds[k].journal| && j < |worlds[k].journal| && worlds[k].journal[i] == worlds[k].journal[j]
    requires var e := worlds[k].journal[i]; e.GenerateCalled? || e.StartSent? || e.AcquireSent?
    ensures i == j
  {
    RunKeepsInv(worlds, moves, k);
    hide IsRun, Justified;
    var journal := worlds[k].journal;
    if i < j { EffectsHappenOnce(journal, i, j); }
    if j < i { EffectsHappenOnce(journal, j, i); }
  }

  ghost predicate Before(journal: seq<Entry>, e: Entry, j: nat) {
    exists i: nat :: i < j && i < |journal| && journal[i] == e
  }

  lemma InPrefix(journal: seq<Entry>, j: nat, e: Entry)
    requires j <= |journal|
    ensures e in journal[..j] <==> Before(journal, e, j)
  {
    if e in journal[..j] {
      var i: nat :| i < j && journal[..j][i] == e;
      assert journal[i] == e;
    }
  }

  /** Every effect finds its own durable intent already recorded, and removal finds its
      attempt not yet known to be absent. */
  lemma IntentIsDurableFirst(worlds: seq<World>, moves: seq<MoveKind>, k: nat, j: nat)
    requires IsRun(worlds, moves) && k < |worlds| && j < |worlds[k].journal|
    ensures var journal := worlds[k].journal;
      match journal[j]
      case AcquireSent(a) => Before(journal, AcquireRecorded(a), j)
      case GenerateCalled(n) => Before(journal, Recorded(n, Intent), j)
      case StartSent(n) =>
        Before(journal, GenerateCalled(n), j) && Before(journal, Recorded(n, StartDispatching), j)
      case RunnerRemoved(n) =>
        Before(journal, Recorded(n, RemovalPending), j) && !Before(journal, Recorded(n, ReconciledAbsent), j)
      case _ => true
  {
    RunKeepsInv(worlds, moves, k);
    hide IsRun;
    var journal := worlds[k].journal;
    assert Justified(journal[..j], journal[j]);
    forall e { InPrefix(journal, j, e); }
  }

  /** A further attempt begins only once every earlier one was reconciled as absent, and
      from then on nothing is recorded of, or done to, the earlier ones. */
  lemma AttemptsFollowAbsence(worlds: seq<World>, moves: seq<MoveKind>, k: nat, i: nat, j: nat)
    requires IsRun(worlds, moves) && k < |worlds| && i < |worlds[k].journal| && j < |worlds[k].journal|
    requires 0 < AttemptOf(worlds[k].journal[i]) < AttemptOf(worlds[k].journal[j])
    ensures i < j
    ensures Before(worlds[k].journal, Recorded(AttemptOf(worlds[k].journal[i]), ReconciledAbsent), j)
  {
    RunKeepsInv(worlds, moves, k);
    hide IsRun, AttemptOf;
    LaterAttemptsFollow(worlds[k].journal, i, j);
  }

  lemma LaterAttemptsFollow(journal: seq<Entry>, i: nat, j: nat)
    requires JournalSafe(journal) && i < |journal| && j < |journal| && 0 < AttemptOf(journal[i]) < AttemptOf(journal[j])
    ensures i < j && Before(journal, Recorded(AttemptOf(journal[i]), ReconciledAbsent), j)
  {
    hide JournalSafe, AttemptOf;
    var n := AttemptOf(journal[i]);
    EarlierAttemptsAbsent(journal, j, n);
    if j < i {
      InPrefix(journal, i, Recorded(n, ReconciledAbsent));
      NothingAfterAbsence(journal, i, n);
    }
  }

  lemma NothingAfterAbsence(journal: seq<Entry>, i: nat, n: nat)
    requires JournalSafe(journal) && i < |journal| && KnownAbsent(journal[..i], n) && n > 0
    ensures AttemptOf(journal[i]) != n
  {
    assert Justified(journal[..i], journal[i]);
  }

  /** What had to come before an entry of a second or later attempt. */
  lemma CauseOf(before: seq<Entry>, e: Entry) returns (c: Entry)
    requires Justified(before, e) && AttemptOf(e) > 1
    ensures c in before
    ensures AttemptOf(c) == AttemptOf(e) || c == Recorded(AttemptOf(e) - 1, ReconciledAbsent)
  {
    var m := AttemptOf(e);
    c := if e == Recorded(m, Intent) then Recorded(m - 1, ReconciledAbsent)
         else if e.StartSent? then Recorded(m, StartDispatching)
         else if e.RunnerRemoved? then Recorded(m, RemovalPending)
         else Recorded(m, Intent);
  }

  /** Before any entry of an attempt, the attempts before it are known to be absent. */
  lemma {:induction false} EarlierAttemptsAbsent(journal: seq<Entry>, j: nat, n: nat)
    requires JournalSafe(journal) && j < |journal| && 0 < n < AttemptOf(journal[j])
    ensures Before(journal, Recorded(n, ReconciledAbsent), j)
    decreases j
  {
    assert Justified(journal[..j], journal[j]);
    hide Justified;
    var c := CauseOf(journal[..j], journal[j]);
    InPrefix(journal, j, c);
    var i: nat :| i < j && journal[i] == c;
    if c != Recorded(n, ReconciledAbsent) {
      EarlierAttemptsAbsent(journal, i, n);
    }
  }

  /** The provider runner is removed only when the provider still lists exactly this
      runner and either nothing proves that the Agent accepted the start, or the start is
      known to have led nowhere: a requeue intent, or a terminal without a start. */
  lemma RemovalNeedsEvidence(w: World, e: Evidence, s: Script, k: nat)
    requires w.current in w.attempts
    requires |Reconcile(w, e, s, k).journal| > |w.journal|
    requires var r := Reconcile(w, e, s, k).journal; r[|r| - 1] == RunnerRemoved(w.current)
    ensures MayReconcile(w) && e.online && e.identityCurrent
    ensures e.query.RunnerFound? && (w.attempts[w.current].runnerID > 0 ==> e.query.id == w.attempts[w.current].runnerID)
    ensures
      || w.requeue
      || e.history.LostTerminalHistory?
      || (e.observation == Some(ObservedTerminal) && e.startUnproven)
      || w.attempts[w.current].startCommand == NO_COMMAND
      || (e.acceptance == NotAccepted && w.attempts[w.current].state !in {AgentAccepted, Started})
    ensures w.requeue ==> !e.pickupProven
  {
    hide ReconcileProvider, ClaimMatches, MayReconcile;
    assert exists c, i ::
      ReconcileProvider(w, e, c, s, i).journal == Reconcile(w, e, s, k).journal &&
      (c ==> w.requeue || e.history.LostTerminalHistory? || (e.observation == Some(ObservedTerminal) && e.startUnproven));
    var c, i :|
      ReconcileProvider(w, e, c, s, i).journal == Reconcile(w, e, s, k).journal &&
      (c ==> w.requeue || e.history.LostTerminalHistory? || (e.observation == Some(ObservedTerminal) && e.startUnproven));
    hide Reconcile;
    ProviderRemovesKnownRunner(w, e, c, s, i);
  }

  lemma ProviderRemovesKnownRunner(w: World, e: Evidence, cleanup: bool, s: Script, k: nat)
    requires w.current in w.attempts
    requires |ReconcileProvider(w, e, cleanup, s, k).journal| > |w.journal|
    requires var r := ReconcileProvider(w, e, cleanup, s, k).journal; r[|r| - 1] == RunnerRemoved(w.current)
    ensures e.identityCurrent
    ensures e.query.RunnerFound? && (w.attempts[w.current].runnerID > 0 ==> e.query.id == w.attempts[w.current].runnerID)
    ensures
      || cleanup
      || w.attempts[w.current].startCommand == NO_COMMAND
      || (e.acceptance == NotAccepted && w.attempts[w.current].state !in {AgentAccepted, Started})
    ensures w.requeue ==> !e.pickupProven
  {
    hide ClaimMatches, MayReconcile;
  }

  /** An attempt is declared absent only while the provider does not list its runner, and
      an attempt that was issued an identity only on a pass that found removal pending. */
  lemma AbsenceNeedsMissingRunner(w: World, e: Evidence, s: Script, k: nat)
    requires w.current in w.attempts && !w.attempts[w.current].state.ReconciledAbsent?
    requires var r := Reconcile(w, e, s, k);
      w.current in r.attempts && r.attempts[w.current].state.ReconciledAbsent?
    ensures MayReconcile(w) && e.query == NoRunner
    ensures w.attempts[w.current].runnerID > 0 ==> w.attempts[w.current].state == RemovalPending
  {
    hide ReconcileProvider, ClaimMatches, MayReconcile;
    var n := w.current;
    assert exists c, i :: ReconcileProvider(w, e, c, s, i).attempts == Reconcile(w, e, s, k).attempts;
    var c, i :| ReconcileProvider(w, e, c, s, i).attempts == Reconcile(w, e, s, k).attempts;
    ProviderProvesAbsence(w, e, c, s, i);
  }

  lemma RemovalIsNotAbsence(w: World, id: nat, s: Script, k: nat)
    requires w.current in w.attempts && !w.attempts[w.current].state.ReconciledAbsent?
    ensures var r := ReconcileRemoval(w, id, s, k);
      w.current in r.attempts && !r.attempts[w.current].state.ReconciledAbsent?
  {
  }

  lemma ProviderProvesAbsence(w: World, e: Evidence, cleanup: bool, s: Script, k: nat)
    requires w.current in w.attempts && !w.attempts[w.current].state.ReconciledAbsent?
    requires var r := ReconcileProvider(w, e, cleanup, s, k);
      w.current in r.attempts && r.attempts[w.current].state.ReconciledAbsent?
    ensures e.query == NoRunner
    ensures w.attempts[w.current].runnerID > 0 ==> w.attempts[w.current].state == RemovalPending
  {
    hide ClaimMatches, MayReconcile;
    hide ReconcileRemoval;
    RemovalIsNotAbsence(w, w.attempts[w.current].runnerID, s, k + 2);
    if e.query.RunnerFound? {
      RemovalIsNotAbsence(w, e.query.id, s, k + 2);
    }
  }

  /** An attempt still owned by its process is left alone. */
  lemma OwnerIsNotReconciled(w: World, e: Evidence, jit: Issued, s: Script)
    requires Open(w) && w.epoch <= w.attempts[w.current].epoch && !w.requeue && Fenced(w)
    ensures DriveNext(w, e, jit, s) == w
  {
  }

  // ------------------------------------------------------------- the forward table

  /** The reply to a store call that took effect, and to one that also said so. */
  predicate TookEffect(r: Reply) {
    r.Done? || r.DoneLate? || r.FailedAfter?
  }

  predicate Confirmed(r: Reply) {
    r.Done? || r.DoneLate?
  }

  /** How far the replies from number k on carry a new attempt: begun, generate called, its
      outcome marked, start recorded as dispatching, start sent, its outcome marked. */
  predicate Begins(s: Script, k: nat) {
    Replies(s, k) && k + 1 < |s| && TookEffect(s[k + 1])
  }

  predicate CallsGenerate(s: Script, k: nat) {
    Begins(s, k) && Confirmed(s[k + 1]) && Replies(s, k + 2) && k + 3 < |s|
  }

  predicate MarksGenerate(s: Script, k: nat) {
    CallsGenerate(s, k) && k + 4 < |s| && TookEffect(s[k + 4])
  }

  predicate RecordsDispatch(s: Script, k: nat) {
    && MarksGenerate(s, k) && s[k + 3].Done? && Confirmed(s[k + 4]) && Replies(s, k + 5)
    && k + 6 < |s| && TookEffect(s[k + 6])
  }

  predicate SendsStart(s: Script, k: nat) {
    RecordsDispatch(s, k) && Confirmed(s[k + 6]) && Replies(s, k + 7) && k + 8 < |s|
  }

  predicate MarksStart(s: Script, k: nat) {
    SendsStart(s, k) && k + 9 < |s| && TookEffect(s[k + 9])
  }

  function When(b: bool, e: Entry): seq<Entry> {
    if b then [e] else []
  }

  /** The entries of attempt n, each there exactly when the replies carry it so far. The
      provider's reply decides between generated and ambiguous, the Agent's between started
      and ambiguous. */
  function EntriesOf(n: nat, s: Script, k: nat): seq<Entry> {
    When(Begins(s, k), Recorded(n, Intent)) + GenerateEntries(n, s, k)
  }

  function GenerateEntries(n: nat, s: Script, k: nat): seq<Entry> {
    When(CallsGenerate(s, k), GenerateCalled(n)) +
    When(MarksGenerate(s, k), Recorded(n, if Replies(s, k + 3) then Generated else GenerationAmbiguous)) +
    StartEntries(n, s, k)
  }

  function StartEntries(n: nat, s: Script, k: nat): seq<Entry> {
    When(RecordsDispatch(s, k), Recorded(n, StartDispatching)) +
    When(SendsStart(s, k), StartSent(n)) +
    When(MarksStart(s, k), Recorded(n, if Replies(s, k + 8) then Started else StartAmbiguous))
  }

  /** The state of a begun attempt, and what it knows of its runner. */
  function AttemptAfter(epoch: nat, jit: Issued, s: Script, k: nat): Attempt
    requires Begins(s, k)
  {
    var issued := MarksGenerate(s, k) && s[k + 3].Done?;
    var state :=
      if MarksStart(s, k) then if s[k + 8].Done? then Started else StartAmbiguous
      else if RecordsDispatch(s, k) then StartDispatching
      else if MarksGenerate(s, k) then if s[k + 3].Done? then Generated else GenerationAmbiguous
      else Intent;
    Attempt(epoch, state, if issued then jit.runnerID else 0, if issued then jit.command else NO_COMMAND)
  }

  /** The claim of a begun attempt runs only once its start was confirmed and recorded in
      time; until then the claim is fenced and follows its attempt. */
  predicate ClaimAfter(r: World, s: Script, k: nat) {
    var runs := MarksStart(s, k) && s[k + 8].Done? && !s[k + 9].DoneLate?;
    && (r.claim == ClaimRunning <==> runs)
    && (Fenced(r) <==> !runs)
    && r.current in r.attempts && ClaimMatches(r.claim, r.attempts[r.current].state)
  }

  /** The owner's transition between two states, as the reply decides. */
  lemma TransitionTable(w: World, to: AttemptState, claim: ClaimState, r: Reply)
    requires w.current in w.attempts && w.attempts[w.current].epoch == w.epoch && ClaimMatches(w.claim, w.attempts[w.current].state)
    ensures var t := Transition(w, w.attempts[w.current].state, to, claim, r);
      && t.world == (if TookEffect(r) then Move(w, to, claim) else w)
      && (t.ok <==> Confirmed(r))
  {
  }

  lemma DispatchIs(w: World, s: Script, k: nat)
    requires MarksGenerate(s, k) && s[k + 3].Done? && Confirmed(s[k + 4]) && Replies(s, k + 5)
    requires w.claim == ClaimGenerated && w.current in w.attempts
    requires w.attempts[w.current].epoch == w.epoch && w.attempts[w.current].state == Generated
    ensures var n := w.current;
      var r := Dispatch(w, s, k + 6);
      var dispatched := Move(w, StartDispatching, ClaimStartDispatching);
      var sent := Effect(dispatched, StartSent(n));
      r == if !RecordsDispatch(s, k) then w
           else if !SendsStart(s, k) then dispatched
           else if !MarksStart(s, k) then sent
           else if s[k + 8].Done? then Move(sent, Started, if s[k + 9].DoneLate? then ReconciliationRequired else ClaimRunning)
           else Move(sent, StartAmbiguous, ClaimStartAmbiguous)
  {
    if k + 6 < |s| {
      TransitionTable(w, StartDispatching, ClaimStartDispatching, s[k + 6]);
      var dispatched := Move(w, StartDispatching, ClaimStartDispatching);
      if SendsStart(s, k) && k + 9 < |s| {
        var sent := Effect(dispatched, StartSent(w.current));
        TransitionTable(sent, Started, if s[k + 9].DoneLate? then ReconciliationRequired else ClaimRunning, s[k + 9]);
        TransitionTable(sent, StartAmbiguous, ClaimStartAmbiguous, s[k + 9]);
      }
      hide Transition, CurrentIn, Move, ClaimMatches;
    }
  }

  /** From a generated attempt whose fence was confirmed. */
  lemma DispatchTable(w: World, jit: Issued, s: Script, k: nat)
    requires MarksGenerate(s, k) && s[k + 3].Done? && Confirmed(s[k + 4]) && Replies(s, k + 5)
    requires w.claim == ClaimGenerated && w.current in w.attempts
    requires w.attempts[w.current] == Attempt(w.epoch, Generated, jit.runnerID, jit.command)
    ensures var r := Dispatch(w, s, k + 6);
      && r == w.(claim := r.claim, attempts := w.attempts[w.current := AttemptAfter(w.epoch, jit, s, k)],
                 journal := w.journal + StartEntries(w.current, s, k))
      && ClaimAfter(r, s, k)
  {
    DispatchIs(w, s, k);
    StartEntriesAre(w.journal, w.current, s, k);
    hide Dispatch, StartEntries, RecordsDispatch, Replies, TookEffect, Confirmed;
  }

  lemma StartEntriesAre(journal: seq<Entry>, n: nat, s: Script, k: nat)
    ensures journal + StartEntries(n, s, k) ==
      if !RecordsDispatch(s, k) then journal
      else if !SendsStart(s, k) then journal + [Recorded(n, StartDispatching)]
      else if !MarksStart(s, k) then journal + [Recorded(n, StartDispatching)] + [StartSent(n)]
      else journal + [Recorded(n, StartDispatching)] + [StartSent(n)] + [Recorded(n, if s[k + 8].Done? then Started else StartAmbiguous)]
  {
    hide RecordsDispatch;
  }

  lemma GenerateIs(w: World, jit: Issued, s: Script, k: nat)
    requires CallsGenerate(s, k) && w.claim == ClaimIntent && w.current in w.attempts
    requires w.attempts[w.current] == Attempt(w.epoch, Intent, 0, NO_COMMAND)
    ensures var called := Effect(w, GenerateCalled(w.current));
      var generated := Rewrite(called, Attempt(w.epoch, Generated, jit.runnerID, jit.command), ClaimGenerated);
      Generate(w, jit, s, k + 3) ==
        if !MarksGenerate(s, k) then called
        else if !s[k + 3].Done? then Move(called, GenerationAmbiguous, ClaimGenerationAmbiguous)
        else if Confirmed(s[k + 4]) && Replies(s, k + 5) then Dispatch(generated, s, k + 6)
        else generated
  {
    hide Dispatch;
  }

  /** From an attempt just begun. */
  lemma GenerateTable(w: World, jit: Issued, s: Script, k: nat)
    requires CallsGenerate(s, k) && w.claim == ClaimIntent && w.current in w.attempts
    requires w.attempts[w.current] == Attempt(w.epoch, Intent, 0, NO_COMMAND)
    ensures var r := Generate(w, jit, s, k + 3);
      && r == w.(claim := r.claim, attempts := w.attempts[w.current := AttemptAfter(w.epoch, jit, s, k)],
                 journal := w.journal + GenerateEntries(w.current, s, k))
      && ClaimAfter(r, s, k)
  {
    GenerateIs(w, jit, s, k);
    GenerateEntriesAre(w.journal, w.current, s, k);
    hide Generate, Dispatch, GenerateEntries, Replies, TookEffect;
    var called := Effect(w, GenerateCalled(w.current));
    var generated := Rewrite(called, Attempt(w.epoch, Generated, jit.runnerID, jit.command), ClaimGenerated);
    if MarksGenerate(s, k) && s[k + 3].Done? && Confirmed(s[k + 4]) && Replies(s, k + 5) {
      DispatchTable(generated, jit, s, k);
      hide AttemptAfter, ClaimAfter, StartEntries;
    }
  }

  lemma GenerateEntriesAre(journal: seq<Entry>, n: nat, s: Script, k: nat)
    requires CallsGenerate(s, k)
    ensures journal + GenerateEntries(n, s, k) ==
      if !MarksGenerate(s, k) then journal + [GenerateCalled(n)]
      else if !s[k + 3].Done? then journal + [GenerateCalled(n)] + [Recorded(n, GenerationAmbiguous)]
      else journal + [GenerateCalled(n)] + [Recorded(n, Generated)] + StartEntries(n, s, k)
    ensures !RecordsDispatch(s, k) ==> StartEntries(n, s, k) == []
  {
    hide Begins, TookEffect;
  }

  /** The replies from number k on carry one new attempt as far as they go. */
  predicate Carries(w: World, r: World, jit: Issued, s: Script, k: nat) {
    && Begins(s, k)
    && r == w.(claim := r.claim, current := w.current + 1,
               attempts := w.attempts[w.current + 1 := AttemptAfter(w.epoch, jit, s, k)],
               journal := w.journal + EntriesOf(w.current + 1, s, k))
    && ClaimAfter(r, s, k)
  }

  /** Generate and start, step by step as the replies allow. */
  lemma ReplyTable(w: World, jit: Issued, s: Script, k: nat)
    requires w.claim.Preparing?
    ensures var r := GenerateAndStart(w, jit, s, k);
      if Begins(s, k) then Carries(w, r, jit, s, k) else r == w
  {
    hide GenerateAndStart, Generate, Carries, CallsGenerate, Begins, Begun;
    GenerateAndStartIs(w, jit, s, k);
    if CallsGenerate(s, k) {
      CalledTable(w, jit, s, k);
    } else if Begins(s, k) {
      BegunTable(w, jit, s, k);
    }
  }

  lemma CalledTable(w: World, jit: Issued, s: Script, k: nat)
    requires CallsGenerate(s, k)
    ensures Begins(s, k) && Carries(w, Generate(Begun(w), jit, s, k + 3), jit, s, k)
  {
    GenerateTable(Begun(w), jit, s, k);
    hide ClaimAfter, AttemptAfter, GenerateEntries, Generate, MarksGenerate, TookEffect;
    BegunCarries(w, Generate(Begun(w), jit, s, k + 3), jit, s, k);
  }

  lemma BegunCarries(w: World, r: World, jit: Issued, s: Script, k: nat)
    requires Begins(s, k) && ClaimAfter(r, s, k)
    requires var b := Begun(w);
      r == b.(claim := r.claim, attempts := b.attempts[w.current + 1 := AttemptAfter(w.epoch, jit, s, k)],
              journal := b.journal + GenerateEntries(w.current + 1, s, k))
    ensures Carries(w, r, jit, s, k)
  {
    hide GenerateEntries, AttemptAfter, ClaimAfter, Begins;
    var e := [Recorded(w.current + 1, Intent)];
    assert (w.journal + e) + GenerateEntries(w.current + 1, s, k) == w.journal + (e + GenerateEntries(w.current + 1, s, k));
  }

  lemma BegunTable(w: World, jit: Issued, s: Script, k: nat)
    requires Begins(s, k) && !CallsGenerate(s, k)
    ensures Carries(w, Begun(w), jit, s, k)
  {
    assert !MarksGenerate(s, k) && !RecordsDispatch(s, k) && !SendsStart(s, k) && !MarksStart(s, k);
    assert EntriesOf(w.current + 1, s, k) == [Recorded(w.current + 1, Intent)];
    hide Replies, TookEffect, MarksGenerate, RecordsDispatch, SendsStart, MarksStart, GenerateEntries;
  }

  /** The world with a new attempt. */
  function Begun(w: World): World {
    var n := w.current + 1;
    w.(claim := ClaimIntent, current := n, attempts := w.attempts[n := Attempt(w.epoch, Intent, 0, NO_COMMAND)],
       journal := w.journal + [Recorded(n, Intent)])
  }

  lemma GenerateAndStartIs(w: World, jit: Issued, s: Script, k: nat)
    requires w.claim.Preparing?
    ensures GenerateAndStart(w, jit, s, k) ==
      if !Begins(s, k) then w else if CallsGenerate(s, k) then Generate(Begun(w), jit, s, k + 3) else Begun(w)
  {
    if |s| <= k + 3 { assert Generate(Begun(w), jit, s, k + 3) == Begun(w); }
    hide Generate;
  }

  /** How far a drive of a pending claim acquires it: the intent recorded, the call sent,
      its success recorded. */
  predicate RecordsAcquire(w: World, s: Script) {
    w.claim.ClaimPending? && w.offered && w.acquireReady && Replies(s, 0) && Replies(s, 1) && 2 < |s| && TookEffect(s[2])
  }

  predicate SendsAcquire(w: World, s: Script) {
    RecordsAcquire(w, s) && Confirmed(s[2]) && Replies(s, 3) && 4 < |s|
  }

  predicate Acquires(w: World, s: Script) {
    SendsAcquire(w, s) && s[4].Done? && 5 < |s| && TookEffect(s[5])
  }

  /** How far it is prepared, the reply to SendPrepare being number k + 1. */
  predicate AnswersPrepare(s: Script, k: nat) {
    Replies(s, k) && k + 2 < |s| && !s[k + 1].Failed? && !s[k + 1].FailedAfter? && TookEffect(s[k + 2])
  }

  predicate Prepares(s: Script, k: nat) {
    AnswersPrepare(s, k) && s[k + 1].Done? && Confirmed(s[k + 2])
  }

  /** The drive comes to begin an attempt, with the replies from this number on. */
  function AttemptBase(claim: ClaimState): nat {
    match claim
    case ClaimPending => 10
    case Acquired => 4
    case _ => 1
  }

  predicate Arrives(w: World, s: Script) {
    match w.claim
    case ClaimPending => Acquires(w, s) && Confirmed(s[5]) && Replies(s, 6) && Prepares(s, 7)
    case Acquired => Replies(s, 0) && Prepares(s, 1)
    case Preparing => Replies(s, 0)
    case _ => false
  }

  /** The claim of a drive that does not come to begin an attempt. */
  function ClaimBefore(w: World, s: Script): ClaimState {
    match w.claim
    case ClaimPending =>
      if Acquires(w, s) then
        if Confirmed(s[5]) && Replies(s, 6) && AnswersPrepare(s, 7) then if s[8].Done? then Preparing else PrepareFailed
        else Acquired
      else if RecordsAcquire(w, s) then AcquireAmbiguous
      else ClaimPending
    case Acquired =>
      if Replies(s, 0) && AnswersPrepare(s, 1) then if s[2].Done? then Preparing else PrepareFailed else Acquired
    case c => c
  }

  lemma AcquireTable(w: World, s: Script)
    requires w.claim.ClaimPending? && Replies(s, 0)
    ensures var r := Acquire(w, s, 1);
      && r.world == AfterAcquire(w, s).(
           claim := if Acquires(w, s) then Acquired else if RecordsAcquire(w, s) then AcquireAmbiguous else ClaimPending)
      && (r.ok <==> Acquires(w, s) && Confirmed(s[5]) && Replies(s, 6))
  {
    var j := w.journal;
    assert j + [] == j;
  }

  lemma PrepareTable(w: World, s: Script, k: nat)
    requires w.claim.Acquired?
    ensures var r := Prepare(w, s, k);
      && r.world == w.(claim := if !AnswersPrepare(s, k) then Acquired else if s[k + 1].Done? then Preparing else PrepareFailed)
      && (r.ok <==> Prepares(s, k))
  {
  }

  /** What a drive changes apart from the claim and its new attempt. */
  function AfterAcquire(w: World, s: Script): World {
    w.(acquireReady := w.acquireReady && !RecordsAcquire(w, s),
       journal := w.journal + (When(RecordsAcquire(w, s), AcquireRecorded(w.acquires)) + When(SendsAcquire(w, s), AcquireSent(w.acquires))))
  }

  /** A drive of a claim that is not fenced, reply by reply. */
  predicate Driven(w: World, r: World, jit: Issued, s: Script) {
    var k, v := AttemptBase(w.claim), AfterAcquire(w, s);
    if Arrives(w, s) && Begins(s, k) then Carries(v, r, jit, s, k) else r == v.(claim := ClaimBefore(w, s))
  }

  lemma DriveTable(w: World, e: Evidence, jit: Issued, s: Script)
    requires !Fenced(w)
    ensures Driven(w, DriveNext(w, e, jit, s), jit, s)
  {
    hide PrepareAndStart, GenerateAndStart, Acquire, Driven;
    match w.claim
    case ClaimPending => PendingTable(w, jit, s);
    case Acquired => AcquiredTable(w, jit, s);
    case Preparing => PreparingTable(w, jit, s);
    case _ => IdleTable(w, jit, s);
  }

  lemma NoAcquire(w: World, s: Script)
    requires !RecordsAcquire(w, s)
    ensures AfterAcquire(w, s) == w
  {
    assert w.journal + [] == w.journal;
  }

  lemma IdleTable(w: World, jit: Issued, s: Script)
    requires w.claim !in {ClaimPending, Acquired, Preparing} || !Replies(s, 0)
    ensures Driven(w, w, jit, s)
  {
    NoAcquire(w, s);
  }

  lemma PendingTable(w: World, jit: Issued, s: Script)
    requires w.claim.ClaimPending?
    ensures Driven(w, if !Replies(s, 0) then w
      else if Acquire(w, s, 1).ok then PrepareAndStart(Acquire(w, s, 1).world, jit, s, 7)
      else Acquire(w, s, 1).world, jit, s)
  {
    if Replies(s, 0) {
      AcquireTable(w, s);
      hide Acquire, PrepareAndStart, AfterAcquire, Carries, Begins, AnswersPrepare;
      if Acquire(w, s, 1).ok { PreparedTable(Acquire(w, s, 1).world, AfterAcquire(w, s), jit, s, 7); }
    } else {
      IdleTable(w, jit, s);
    }
  }

  lemma AcquiredTable(w: World, jit: Issued, s: Script)
    requires w.claim.Acquired?
    ensures Driven(w, if Replies(s, 0) then PrepareAndStart(w, jit, s, 1) else w, jit, s)
  {
    hide PrepareAndStart, AfterAcquire, Carries, Begins, AnswersPrepare;
    NoAcquire(w, s);
    PreparedTable(w, w, jit, s, 1);
  }

  lemma PreparingTable(w: World, jit: Issued, s: Script)
    requires w.claim.Preparing?
    ensures Driven(w, if Replies(s, 0) then GenerateAndStart(w, jit, s, 1) else w, jit, s)
  {
    hide GenerateAndStart, AfterAcquire, Carries, Begins;
    NoAcquire(w, s);
    ReplyTable(w, jit, s, 1);
  }

  lemma CarriesAlike(w: World, v: World, r: World, jit: Issued, s: Script, k: nat)
    requires (Carries(w, r, jit, s, k) || !Begins(s, k)) && v == w.(claim := v.claim)
    ensures Begins(s, k) ==> Carries(v, r, jit, s, k)
  {
  }

  lemma PreparedTable(w: World, v: World, jit: Issued, s: Script, k: nat)
    requires w.claim.Acquired? && v == w.(claim := v.claim)
    ensures var r := PrepareAndStart(w, jit, s, k);
      if Prepares(s, k) && Begins(s, k + 3) then Carries(v, r, jit, s, k + 3)
      else r == v.(claim := if !AnswersPrepare(s, k) then Acquired else if s[k + 1].Done? then Preparing else PrepareFailed)
  {
    PrepareTable(w, s, k);
    if Prepares(s, k) {
      var prepared := Prepare(w, s, k).world;
      ReplyTable(prepared, jit, s, k + 3);
      hide Carries;
      CarriesAlike(prepared, v, GenerateAndStart(prepared, jit, s, k + 3), jit, s, k + 3);
    }
    hide Prepare, GenerateAndStart, Begins;
  }

  /** Whether entry e is one of attempt n's, by the replies. */
  lemma EntriesHave(n: nat, s: Script, k: nat, e: Entry)
    ensures e in EntriesOf(n, s, k) <==>
      || (Begins(s, k) && e == Recorded(n, Intent))
      || (CallsGenerate(s, k) && e == GenerateCalled(n))
      || (MarksGenerate(s, k) && e == Recorded(n, if s[k + 3].Done? then Generated else GenerationAmbiguous))
      || (RecordsDispatch(s, k) && e == Recorded(n, StartDispatching))
      || (SendsStart(s, k) && e == StartSent(n))
      || (MarksStart(s, k) && e == Recorded(n, if s[k + 8].Done? then Started else StartAmbiguous))
  {
    hide Begins, TookEffect, Confirmed;
  }

  /** What a generate call left behind: the outcome recorded is that of its own reply, and
      without a record the attempt stays as it was, all of it for reconciliation. */
  predicate GenerateOutcome(r: World, n: nat, s: Script, k: nat) {
    && k + 3 < |s| && r.current == n && n in r.attempts
    && var marked := k + 4 < |s| && TookEffect(s[k + 4]);
    && (Recorded(n, Generated) in r.journal <==> marked && s[k + 3].Done?)
    && (Recorded(n, GenerationAmbiguous) in r.journal <==> marked && !s[k + 3].Done?)
    && (marked && !s[k + 3].Done? ==>
          r.attempts[n].state == GenerationAmbiguous && r.claim == ClaimGenerationAmbiguous && Fenced(r))
    && (!marked ==> r.attempts[n].state == Intent && r.claim == ClaimIntent && Fenced(r))
  }

  /** What a start left behind. */
  predicate StartOutcome(r: World, n: nat, s: Script, k: nat) {
    && k + 8 < |s| && r.current == n && n in r.attempts
    && var marked := k + 9 < |s| && TookEffect(s[k + 9]);
    && (Recorded(n, Started) in r.journal <==> marked && s[k + 8].Done?)
    && (Recorded(n, StartAmbiguous) in r.journal <==> marked && !s[k + 8].Done?)
    && (marked && s[k + 8].Done? ==>
          r.attempts[n].state == Started && r.claim == if s[k + 9].DoneLate? then ReconciliationRequired else ClaimRunning)
    && (marked && !s[k + 8].Done? ==>
          r.attempts[n].state == StartAmbiguous && r.claim == ClaimStartAmbiguous && Fenced(r))
    && (!marked ==> r.attempts[n].state == StartDispatching && r.claim == ClaimStartDispatching && Fenced(r))
  }

  /** Over every run, when a claim that is not fenced is driven: the outcome recorded of a
      generation and of a start is that of the reply to this very call, k + 3 or k + 8. A
      reply that does not confirm, and a record that fails, leave the claim fenced. */
  lemma OutcomesFollowReplies(worlds: seq<World>, moves: seq<MoveKind>, i: nat)
    requires IsRun(worlds, moves) && i < |moves| && moves[i].Drive? && !Fenced(worlds[i])
    ensures var w, r, s, n := worlds[i], worlds[i + 1], moves[i].s, worlds[i].current + 1;
      var k := AttemptBase(w.claim);
      && (GenerateCalled(n) in r.journal ==> GenerateOutcome(r, n, s, k))
      && (StartSent(n) in r.journal ==> StartOutcome(r, n, s, k))
      && (Recorded(n, Started) in r.journal ==> StartSent(n) in r.journal)
  {
    RunKeepsInv(worlds, moves, i);
    var w := worlds[i];
    assert forall e :: e in w.journal ==> AttemptOf(e) <= w.current;
    assert worlds[i + 1] == DriveNext(w, moves[i].e, moves[i].jit, moves[i].s);
    hide *;
    DriveOutcomes(w, moves[i].e, moves[i].jit, moves[i].s);
  }

  lemma DriveOutcomes(w: World, e: Evidence, jit: Issued, s: Script)
    requires !Fenced(w) && forall x :: x in w.journal ==> AttemptOf(x) <= w.current
    ensures var r, n, k := DriveNext(w, e, jit, s), w.current + 1, AttemptBase(w.claim);
      && (GenerateCalled(n) in r.journal ==> GenerateOutcome(r, n, s, k))
      && (StartSent(n) in r.journal ==> StartOutcome(r, n, s, k))
      && (Recorded(n, Started) in r.journal ==> StartSent(n) in r.journal)
  {
    hide *;
    var v, r, k := AfterAcquire(w, s), DriveNext(w, e, jit, s), AttemptBase(w.claim);
    AcquireOnly(w, s);
    DriveTable(w, e, jit, s);
    DrivenIsCarried(w, r, jit, s);
    TableGivesGenerate(v, r, jit, s, k);
    TableGivesStart(v, r, jit, s, k);
  }

  lemma DrivenIsCarried(w: World, r: World, jit: Issued, s: Script)
    requires Driven(w, r, jit, s)
    ensures Carries(AfterAcquire(w, s), r, jit, s, AttemptBase(w.claim)) || r.journal == AfterAcquire(w, s).journal
  {
  }

  lemma AcquireOnly(w: World, s: Script)
    requires forall x :: x in w.journal ==> AttemptOf(x) <= w.current
    ensures AfterAcquire(w, s).current == w.current
    ensures forall x :: x in AfterAcquire(w, s).journal ==> AttemptOf(x) != w.current + 1
  {
    hide RecordsAcquire, SendsAcquire;
  }

  /** Which entries of its attempt the journal holds. */
  lemma TableHas(v: World, r: World, jit: Issued, s: Script, k: nat, e: Entry)
    requires forall x :: x in v.journal ==> AttemptOf(x) != v.current + 1
    requires Carries(v, r, jit, s, k) || r.journal == v.journal
    requires AttemptOf(e) == v.current + 1
    ensures e in r.journal ==> Carries(v, r, jit, s, k)
    ensures Carries(v, r, jit, s, k) ==> (e in r.journal <==> e in EntriesOf(v.current + 1, s, k))
  {
    hide EntriesOf, AttemptOf, Begins;
  }

  lemma TableGivesGenerate(v: World, r: World, jit: Issued, s: Script, k: nat)
    requires forall e :: e in v.journal ==> AttemptOf(e) != v.current + 1
    requires Carries(v, r, jit, s, k) || r.journal == v.journal
    ensures GenerateCalled(v.current + 1) in r.journal ==> GenerateOutcome(r, v.current + 1, s, k)
  {
    var n := v.current + 1;
    assert AttemptOf(GenerateCalled(n)) == AttemptOf(Recorded(n, Generated)) == AttemptOf(Recorded(n, GenerationAmbiguous)) == n;
    assert Carries(v, r, jit, s, k) ==>
      Begins(s, k) && r.current == n && n in r.attempts && r.attempts[n] == AttemptAfter(v.epoch, jit, s, k) && ClaimAfter(r, s, k);
    hide *;
    TableHas(v, r, jit, s, k, GenerateCalled(n));
    TableHas(v, r, jit, s, k, Recorded(n, Generated));
    TableHas(v, r, jit, s, k, Recorded(n, GenerationAmbiguous));
    EntriesHave(n, s, k, GenerateCalled(n));
    EntriesHave(n, s, k, Recorded(n, Generated));
    EntriesHave(n, s, k, Recorded(n, GenerationAmbiguous));
    if GenerateCalled(n) in r.journal { GenerateLeaves(r, v.epoch, jit, s, k); }
  }

  lemma GenerateLeaves(r: World, epoch: nat, jit: Issued, s: Script, k: nat)
    requires CallsGenerate(s, k) && r.current in r.attempts
    requires r.attempts[r.current] == AttemptAfter(epoch, jit, s, k) && ClaimAfter(r, s, k)
    requires Recorded(r.current, Generated) in r.journal <==> MarksGenerate(s, k) && s[k + 3].Done?
    requires Recorded(r.current, GenerationAmbiguous) in r.journal <==> MarksGenerate(s, k) && !s[k + 3].Done?
    ensures GenerateOutcome(r, r.current, s, k)
  {
    hide Replies, TookEffect, Confirmed, Begins;
  }

  lemma TableGivesStart(v: World, r: World, jit: Issued, s: Script, k: nat)
    requires forall e :: e in v.journal ==> AttemptOf(e) != v.current + 1
    requires Carries(v, r, jit, s, k) || r.journal == v.journal
    ensures StartSent(v.current + 1) in r.journal ==> StartOutcome(r, v.current + 1, s, k)
    ensures Recorded(v.current + 1, Started) in r.journal ==> StartSent(v.current + 1) in r.journal
  {
    var n := v.current + 1;
    assert AttemptOf(StartSent(n)) == AttemptOf(Recorded(n, Started)) == AttemptOf(Recorded(n, StartAmbiguous)) == n;
    assert Carries(v, r, jit, s, k) ==>
      Begins(s, k) && r.current == n && n in r.attempts && r.attempts[n] == AttemptAfter(v.epoch, jit, s, k) && ClaimAfter(r, s, k);
    assert MarksStart(s, k) ==> SendsStart(s, k);
    hide *;
    TableHas(v, r, jit, s, k, StartSent(n));
    TableHas(v, r, jit, s, k, Recorded(n, Started));
    TableHas(v, r, jit, s, k, Recorded(n, StartAmbiguous));
    EntriesHave(n, s, k, StartSent(n));
    EntriesHave(n, s, k, Recorded(n, Started));
    EntriesHave(n, s, k, Recorded(n, StartAmbiguous));
    if StartSent(n) in r.journal { StartLeaves(r, v.epoch, jit, s, k); }
  }

  lemma StartLeaves(r: World, epoch: nat, jit: Issued, s: Script, k: nat)
    requires SendsStart(s, k) && r.current in r.attempts
    requires r.attempts[r.current] == AttemptAfter(epoch, jit, s, k) && ClaimAfter(r, s, k)
    requires Recorded(r.current, Started) in r.journal <==> MarksStart(s, k) && s[k + 8].Done?
    requires Recorded(r.current, StartAmbiguous) in r.journal <==> MarksStart(s, k) && !s[k + 8].Done?
    ensures StartOutcome(r, r.current, s, k)
  {
    hide Replies, TookEffect, Confirmed, Begins, MarksGenerate;
  }

  // -------------------------------------------------------- claims and attempts agree

  /** The claim's state is one of those of its current attempt, and a requeue intent is for
      a started runner or for its removal. */
  predicate Agrees(w: World) {
    && (w.current in w.attempts ==>
          var a := w.attempts[w.current];
          a.epoch <= w.epoch && (a.state.ReconciledAbsent? || ClaimMatches(w.claim, a.state)))
    && (w.requeue ==> w.current in w.attempts && w.attempts[w.current].state in {Started, RemovalPending})
  }

  lemma ForwardKeepsAgreement(w: World, e: Evidence, jit: Issued, s: Script)
    requires Agrees(w) && !Fenced(w)
    ensures Agrees(DriveNext(w, e, jit, s))
  {
    DriveTable(w, e, jit, s);
    hide DriveNext, EntriesOf, Begins, Arrives, RecordsAcquire, SendsAcquire, Acquires, AnswersPrepare;
  }

  lemma RemovalKeepsAgreement(w: World, id: nat, r: Reply)
    requires Agrees(w)
    ensures Agrees(MarkRemovalPending(w, id, r).world)
  {
  }

  lemma AbsenceKeepsAgreement(w: World, aftermath: Aftermath, r: Reply)
    requires Agrees(w)
    ensures Agrees(MarkReconciledAbsent(w, aftermath, r).world)
  {
  }

  lemma StartKeepsAgreement(w: World, r: Reply)
    requires Agrees(w) && !w.requeue
    ensures Agrees(MarkStarted(w, r).world) && Agrees(MarkAgentAccepted(w, r).world)
  {
  }

  // --------------------------------------------------------- the reconciliation table

  /** What the evidence proves about the current attempt. */
  datatype Finding = NothingProved | StartProved | AcceptanceProved | RunnerListed(id: nat) | RunnerMissing

  /** The attempt is open, its Agent is online, and it belongs to an earlier process, or a
      requeue that is still current gave it up. */
  predicate ForReconciliation(w: World, e: Evidence) {
    && w.current in w.attempts && !w.attempts[w.current].state.ReconciledAbsent? && e.online
    && (if w.requeue then e.requeueCurrent && w.attempts[w.current].epoch <= w.epoch else w.attempts[w.current].epoch < w.epoch)
  }

  /** Nobody can have seen this attempt's start: no command was issued, or the Agent has
      not accepted it and reports nothing beyond preparing. */
  predicate NothingSeen(a: Attempt, e: Evidence) {
    && (e.observation.None? || e.observation.value == ObservedPreparing)
    && (a.startCommand == NO_COMMAND ||
        (e.acceptance == NotAccepted && a.state !in {AgentAccepted, Started} &&
         (a.state in {StartDispatching, StartAmbiguous} ==> e.history == NoHistory)))
  }

  /** The start was made but is known to have led nowhere, or was given up by a requeue. */
  predicate GivenUp(w: World, a: Attempt, e: Evidence) {
    var wasSent := a.state in {StartDispatching, StartAmbiguous, AgentAccepted, Started};
    || w.requeue
    || (a.startCommand != NO_COMMAND && wasSent && e.history == LostTerminalHistory)
    || (a.startCommand != NO_COMMAND && e.observation == Some(ObservedTerminal) && e.startUnproven &&
        (wasSent ==> e.history == NoHistory))
  }

  function ProviderFinding(a: Attempt, cleanup: bool, e: Evidence): Finding {
    if !e.identityCurrent then NothingProved
    else
      match e.query
      case NoRunner => RunnerMissing
      case RunnerFound(id) =>
        if (if cleanup then id == a.runnerID else id > 0 && (a.runnerID == 0 || id == a.runnerID)) then RunnerListed(id)
        else NothingProved
      case _ => NothingProved
  }

  /** A start that may have been accepted is settled by the Agent's history and
      observation; whatever the Agent cannot have seen is for the provider to tell. */
  function FindingOf(w: World, e: Evidence): Finding
    requires w.current in w.attempts
  {
    var a := w.attempts[w.current];
    var wasSent := a.startCommand != NO_COMMAND && a.state in {StartDispatching, StartAmbiguous, AgentAccepted, Started};
    var accepted := a.state in {AgentAccepted, Started} || e.acceptance == AcceptedByAgent;
    if GivenUp(w, a, e) then
      if w.requeue && e.pickupProven && e.query.RunnerFound? then NothingProved else ProviderFinding(a, true, e)
    else if NothingSeen(a, e) then ProviderFinding(a, false, e)
    else if !wasSent || e.history == OtherHistory then NothingProved
    else if e.history == StartedHistory || e.observation == Some(ObservedTerminal) then StartProved
    else if e.acceptance == Contradictory || !accepted then NothingProved
    else if e.observation == Some(ObservedActive) then StartProved
    else if a.state in {AgentAccepted, Started} then NothingProved
    else AcceptanceProved
  }

  /** The finding as it is recorded when nothing fails: a missing runner that was issued
      needs a later pass that finds its removal pending; absence decides the claim. */
  predicate Records(w: World, r: World, f: Finding, aftermath: Aftermath)
    requires w.current in w.attempts
  {
    var n, a := w.current, w.attempts[w.current];
    match f
    case NothingProved => r == w
    case StartProved =>
      r == w.(claim := ClaimRunning, attempts := w.attempts[n := a.(state := Started)], journal := w.journal + [Recorded(n, Started)])
    case AcceptanceProved =>
      r == w.(claim := ReconciliationRequired, attempts := w.attempts[n := a.(state := AgentAccepted)],
              journal := w.journal + [Recorded(n, AgentAccepted)])
    case RunnerListed(id) => Pends(w, r, if a.state in {Intent, GenerationAmbiguous} then id else a.runnerID, [RunnerRemoved(n)])
    case RunnerMissing =>
      if a.runnerID > 0 && a.state != RemovalPending then Pends(w, r, a.runnerID, [])
      else if a.state !in {Intent, GenerationAmbiguous, RemovalPending} then r == w
      else
        && r == w.(claim := r.claim, attempts := w.attempts[n := Attempt(a.epoch, ReconciledAbsent, 0, NO_COMMAND)],
                   journal := w.journal + [Recorded(n, ReconciledAbsent)], requeue := false,
                   acquires := r.acquires, acquireReady := r.acquireReady)
        && (if aftermath == Replace then r.claim == ClaimPending && r.acquires == w.acquires + 1 && r.acquireReady
            else r.acquires == w.acquires && r.acquireReady == w.acquireReady)
        && (aftermath == Retry ==> r.claim == Preparing)
        && (aftermath == Dormant ==> r.claim == ReconciliationRequired)
        && (aftermath == PickedUp ==> r.claim == ClaimRunning)
  }

  /** Removal is pending, recorded unless it was before. */
  predicate Pends(w: World, r: World, id: nat, more: seq<Entry>)
    requires w.current in w.attempts
  {
    var n, a := w.current, w.attempts[w.current];
    r == if a.state == RemovalPending then w.(journal := w.journal + more)
         else w.(claim := ReconciliationRequired, attempts := w.attempts[n := a.(state := RemovalPending, runnerID := id)],
                 journal := w.journal + [Recorded(n, RemovalPending)] + more)
  }

  lemma RemovalTable(w: World, e: Evidence, id: nat, s: Script, k: nat)
    requires Agrees(w) && ForReconciliation(w, e) && AllDone(s, k, k + 3)
    ensures var a := w.attempts[w.current];
      var known := if a.state in {Intent, GenerationAmbiguous} then id else a.runnerID;
      Pends(w, ReconcileRemoval(w, id, s, k), known, [RunnerRemoved(w.current)])
  {
  }

  lemma AbsenceTable(w: World, e: Evidence, s: Script, k: nat)
    requires Agrees(w) && ForReconciliation(w, e) && AllDone(s, k, k + 1)
    ensures Records(w, ReconcileAbsence(w, e, s, k), RunnerMissing, e.aftermath)
  {
    assert w.journal + [Recorded(w.current, RemovalPending)] + [] == w.journal + [Recorded(w.current, RemovalPending)];
  }

  lemma ProviderTable(w: World, e: Evidence, cleanup: bool, s: Script, k: nat)
    requires Agrees(w) && ForReconciliation(w, e) && AllDone(s, k, k + 5)
    requires w.requeue ==> cleanup
    requires var a := w.attempts[w.current];
      cleanup || a.startCommand == NO_COMMAND || (e.acceptance == NotAccepted && a.state !in {AgentAccepted, Started})
    ensures Records(w, ReconcileProvider(w, e, cleanup, s, k),
      if w.requeue && e.pickupProven && e.query.RunnerFound? then NothingProved
      else ProviderFinding(w.attempts[w.current], cleanup, e), e.aftermath)
  {
    AbsenceTable(w, e, s, k + 2);
    if e.query.RunnerFound? { RemovalTable(w, e, e.query.id, s, k + 2); }
    hide ReconcileAbsence, ReconcileRemoval, Pends;
  }

  lemma StartTable(w: World, e: Evidence, r: Reply)
    requires Agrees(w) && ForReconciliation(w, e) && r.Done? && !w.requeue
    ensures var n, a := w.current, w.attempts[w.current];
      && MarkStarted(w, r).world == (
           if a.state in {StartDispatching, StartAmbiguous, AgentAccepted, Started} then
             w.(claim := ClaimRunning, attempts := w.attempts[n := a.(state := Started)], journal := w.journal + [Recorded(n, Started)])
           else w)
      && MarkAgentAccepted(w, r).world == (
           if a.state in {StartDispatching, StartAmbiguous, AgentAccepted} then
             w.(claim := ReconciliationRequired, attempts := w.attempts[n := a.(state := AgentAccepted)],
                journal := w.journal + [Recorded(n, AgentAccepted)])
           else w)
  {
  }

  lemma AgentTable(w: World, e: Evidence, s: Script, k: nat)
    requires Agrees(w) && ForReconciliation(w, e) && AllDone(s, k, k + 5) && !w.requeue
    requires var a := w.attempts[w.current];
      && !GivenUp(w, a, e)
      && (a.startCommand != NO_COMMAND && a.state in {StartDispatching, StartAmbiguous, AgentAccepted, Started} ==> e.history == NoHistory)
      && !(a.startCommand != NO_COMMAND && e.observation == Some(ObservedTerminal))
    ensures Records(w, ReconcileAgent(w, e, s, k), FindingOf(w, e), e.aftermath)
  {
    var a := w.attempts[w.current];
    StartTable(w, e, s[k]);
    if a.startCommand == NO_COMMAND || (e.acceptance == NotAccepted && a.state !in {AgentAccepted, Started}) {
      ProviderTable(w, e, false, s, k);
    }
    hide ReconcileProvider, MarkStarted, MarkAgentAccepted, Pends, ProviderFinding;
  }

  lemma TerminalTable(w: World, e: Evidence, lost: bool, s: Script, k: nat)
    requires Agrees(w) && ForReconciliation(w, e) && AllDone(s, k, k + 6)
    requires var a := w.attempts[w.current];
      var wasSent := a.startCommand != NO_COMMAND && a.state in {StartDispatching, StartAmbiguous, AgentAccepted, Started};
      && lost == (!w.requeue && wasSent && e.history == LostTerminalHistory)
      && (!w.requeue && wasSent ==> e.history in {NoHistory, LostTerminalHistory})
    ensures Records(w, ReconcileTerminal(w, e, lost, s, k), FindingOf(w, e), e.aftermath)
  {
    var a := w.attempts[w.current];
    if !w.requeue && e.observation == Some(ObservedTerminal) && a.startCommand != NO_COMMAND && !lost {
      StartTable(w, e, s[k]);
      ProviderTable(w, e, true, s, k + 1);
      hide ReconcileProvider, MarkStarted, Pends, ProviderFinding, ReconcileAgent;
    } else if w.requeue || lost {
      ProviderTable(w, e, true, s, k);
      hide ReconcileProvider, Pends, ProviderFinding, ReconcileAgent;
    } else {
      AgentTable(w, e, s, k);
      hide ReconcileProvider, Pends, ProviderFinding, ReconcileAgent, FindingOf, Records;
    }
  }

  /** Without failures a reconciliation records exactly what the evidence proves. */
  lemma ReconciliationTable(w: World, e: Evidence, s: Script, k: nat)
    requires Agrees(w) && w.current in w.attempts && AllDone(s, k, k + 7)
    ensures Records(w, Reconcile(w, e, s, k), if ForReconciliation(w, e) then FindingOf(w, e) else NothingProved, e.aftermath)
  {
    if ForReconciliation(w, e) {
      var a := w.attempts[w.current];
      if !w.requeue && a.startCommand != NO_COMMAND && a.state in {StartDispatching, StartAmbiguous, AgentAccepted, Started} {
        SentTable(w, e, s, k);
        hide Reconcile, Records, FindingOf;
      } else {
        TerminalTable(w, e, false, s, k);
        hide ReconcileTerminal, Records, FindingOf;
      }
    } else {
      hide ReconcileTerminal, MarkStarted;
    }
  }

  lemma SentTable(w: World, e: Evidence, s: Script, k: nat)
    requires Agrees(w) && ForReconciliation(w, e) && AllDone(s, k, k + 7) && !w.requeue
    requires var a := w.attempts[w.current];
      a.startCommand != NO_COMMAND && a.state in {StartDispatching, StartAmbiguous, AgentAccepted, Started}
    ensures Records(w, Reconcile(w, e, s, k), FindingOf(w, e), e.aftermath)
  {
    if e.history.NoHistory? || e.history.LostTerminalHistory? {
      TerminalTable(w, e, e.history.LostTerminalHistory?, s, k + 1);
      hide ReconcileTerminal, Records, FindingOf;
    } else {
      StartTable(w, e, s[k]);
      hide ReconcileTerminal, MarkStarted, Pends, ProviderFinding;
    }
  }

  /** A reconciliation that failures cut short: nothing, or all of its record but not the
      removal that follows it, or a start that was confirmed too late to keep the claim running. */
  predicate RecordsAtMost(w: World, r: World, f: Finding, aftermath: Aftermath)
    requires w.current in w.attempts
  {
    var n, a := w.current, w.attempts[w.current];
    || r == w
    || Records(w, r, f, aftermath)
    || (f.RunnerListed? && Pends(w, r, if a.state in {Intent, GenerationAmbiguous} then f.id else a.runnerID, []))
    || (f.StartProved? && r == w.(claim := ReconciliationRequired, attempts := w.attempts[n := a.(state := Started)],
                                  journal := w.journal + [Recorded(n, Started)]))
  }

  lemma RemovalAtMost(w: World, id: nat, s: Script, k: nat)
    requires Agrees(w) && w.current in w.attempts
    ensures var a := w.attempts[w.current];
      var known := if a.state in {Intent, GenerationAmbiguous} then id else a.runnerID;
      var r := ReconcileRemoval(w, id, s, k);
      r == w || Pends(w, r, known, []) || Pends(w, r, known, [RunnerRemoved(w.current)])
  {
    assert forall j: seq<Entry> :: j + [] == j;
  }

  lemma AbsenceAtMost(w: World, e: Evidence, s: Script, k: nat)
    requires Agrees(w) && w.current in w.attempts
    ensures RecordsAtMost(w, ReconcileAbsence(w, e, s, k), RunnerMissing, e.aftermath)
  {
    assert w.journal + [Recorded(w.current, RemovalPending)] + [] == w.journal + [Recorded(w.current, RemovalPending)];
  }

  lemma ProviderAtMost(w: World, e: Evidence, cleanup: bool, s: Script, k: nat)
    requires Agrees(w) && ForReconciliation(w, e)
    requires w.requeue ==> cleanup
    requires var a := w.attempts[w.current];
      cleanup || a.startCommand == NO_COMMAND || (e.acceptance == NotAccepted && a.state !in {AgentAccepted, Started})
    ensures RecordsAtMost(w, ReconcileProvider(w, e, cleanup, s, k),
      if w.requeue && e.pickupProven && e.query.RunnerFound? then NothingProved
      else ProviderFinding(w.attempts[w.current], cleanup, e), e.aftermath)
  {
    AbsenceAtMost(w, e, s, k + 2);
    if e.query.RunnerFound? { RemovalAtMost(w, e.query.id, s, k + 2); }
    hide ReconcileAbsence, ReconcileRemoval, Pends;
  }

  lemma StartAtMost(w: World, e: Evidence, r: Reply)
    requires Agrees(w) && ForReconciliation(w, e) && !w.requeue
    ensures var a := w.attempts[w.current];
      && (a.state in {StartDispatching, StartAmbiguous, AgentAccepted, Started} ==>
            RecordsAtMost(w, MarkStarted(w, r).world, StartProved, e.aftermath))
      && (a.state !in {StartDispatching, StartAmbiguous, AgentAccepted, Started} ==> MarkStarted(w, r).world == w)
      && (a.state in {StartDispatching, StartAmbiguous} ==>
            RecordsAtMost(w, MarkAgentAccepted(w, r).world, AcceptanceProved, e.aftermath))
      && (a.state !in {StartDispatching, StartAmbiguous, AgentAccepted} ==> MarkAgentAccepted(w, r).world == w)
  {
  }

  lemma AgentAtMost(w: World, e: Evidence, s: Script, k: nat)
    requires Agrees(w) && ForReconciliation(w, e) && !w.requeue
    requires var a := w.attempts[w.current];
      && !GivenUp(w, a, e)
      && (a.startCommand != NO_COMMAND && a.state in {StartDispatching, StartAmbiguous, AgentAccepted, Started} ==> e.history == NoHistory)
      && !(a.startCommand != NO_COMMAND && e.observation == Some(ObservedTerminal))
    ensures RecordsAtMost(w, ReconcileAgent(w, e, s, k), FindingOf(w, e), e.aftermath)
  {
    var a := w.attempts[w.current];
    if |s| > k { StartAtMost(w, e, s[k]); }
    if a.startCommand == NO_COMMAND || (e.acceptance == NotAccepted && a.state !in {AgentAccepted, Started}) {
      ProviderAtMost(w, e, false, s, k);
    }
    hide ReconcileProvider, MarkStarted, MarkAgentAccepted, Pends, ProviderFinding, Records;
  }

  lemma TerminalAtMost(w: World, e: Evidence, lost: bool, s: Script, k: nat)
    requires Agrees(w) && ForReconciliation(w, e)
    requires var a := w.attempts[w.current];
      var wasSent := a.startCommand != NO_COMMAND && a.state in {StartDispatching, StartAmbiguous, AgentAccepted, Started};
      && lost == (!w.requeue && wasSent && e.history == LostTerminalHistory)
      && (!w.requeue && wasSent ==> e.history in {NoHistory, LostTerminalHistory})
    ensures RecordsAtMost(w, ReconcileTerminal(w, e, lost, s, k), FindingOf(w, e), e.aftermath)
  {
    var a := w.attempts[w.current];
    if !w.requeue && e.observation == Some(ObservedTerminal) && a.startCommand != NO_COMMAND && !lost {
      if |s| > k { StartAtMost(w, e, s[k]); }
      ProviderAtMost(w, e, true, s, k + 1);
      hide ReconcileProvider, MarkStarted, Pends, ProviderFinding, ReconcileAgent, Records;
    } else if w.requeue || lost {
      ProviderAtMost(w, e, true, s, k);
      hide ReconcileProvider, Pends, ProviderFinding, ReconcileAgent, Records;
    } else {
      AgentAtMost(w, e, s, k);
      hide ReconcileProvider, Pends, ProviderFinding, ReconcileAgent, FindingOf, RecordsAtMost;
    }
  }

  lemma ReconciliationAtMost(w: World, e: Evidence, s: Script, k: nat)
    requires Agrees(w) && w.current in w.attempts
    ensures RecordsAtMost(w, Reconcile(w, e, s, k), if ForReconciliation(w, e) then FindingOf(w, e) else NothingProved, e.aftermath)
  {
    if ForReconciliation(w, e) {
      var a := w.attempts[w.current];
      if !w.requeue && a.startCommand != NO_COMMAND && a.state in {StartDispatching, StartAmbiguous, AgentAccepted, Started} {
        SentAtMost(w, e, s, k);
        hide Reconcile, RecordsAtMost, FindingOf;
      } else {
        TerminalAtMost(w, e, false, s, k);
        hide ReconcileTerminal, RecordsAtMost, FindingOf;
      }
    } else {
      hide ReconcileTerminal, MarkStarted;
    }
  }

  lemma SentAtMost(w: World, e: Evidence, s: Script, k: nat)
    requires Agrees(w) && ForReconciliation(w, e) && !w.requeue
    requires var a := w.attempts[w.current];
      a.startCommand != NO_COMMAND && a.state in {StartDispatching, StartAmbiguous, AgentAccepted, Started}
    ensures RecordsAtMost(w, Reconcile(w, e, s, k), FindingOf(w, e), e.aftermath)
  {
    if e.history.NoHistory? || e.history.LostTerminalHistory? {
      TerminalAtMost(w, e, e.history.LostTerminalHistory?, s, k + 1);
      assert RecordsAtMost(w, w, FindingOf(w, e), e.aftermath);
      hide ReconcileTerminal, RecordsAtMost, FindingOf;
    } else {
      if |s| > k { StartAtMost(w, e, s[k]); }
      hide ReconcileTerminal, MarkStarted, Pends, ProviderFinding, Records;
    }
  }

  lemma ReconcileKeepsAgreement(w: World, e: Evidence, s: Script, k: nat)
    requires Agrees(w)
    ensures Agrees(Reconcile(w, e, s, k))
  {
    if w.current in w.attempts {
      ReconciliationAtMost(w, e, s, k);
      hide Reconcile, FindingOf;
    }
  }

  lemma MoveKeepsAgreement(w: World, m: MoveKind)
    requires Agrees(w)
    ensures Agrees(Perform(w, m))
  {
    if m.Drive? {
      ReconcileKeepsAgreement(w, m.e, m.s, 1);
      if !Fenced(w) { ForwardKeepsAgreement(w, m.e, m.jit, m.s); }
      hide Agrees, Reconcile, Acquire, PrepareAndStart, GenerateAndStart;
    }
  }

  lemma {:induction false} RunKeepsAgreement(worlds: seq<World>, moves: seq<MoveKind>, i: nat)
    requires IsRun(worlds, moves) && i < |worlds|
    ensures Agrees(worlds[i])
  {
    if i > 0 {
      RunKeepsAgreement(worlds, moves, i - 1);
      hide Agrees, Perform;
      MoveKeepsAgreement(worlds[i - 1], moves[i - 1]);
    }
  }

  /** Over every run, driving a fenced claim with an attempt records what the evidence
      proves about it, cut short only by failing calls. */
  lemma ReconciliationRecordsFindings(worlds: seq<World>, moves: seq<MoveKind>, i: nat)
    requires IsRun(worlds, moves) && i < |moves| && moves[i].Drive?
    requires var w := worlds[i]; Fenced(w) && !w.claim.AcquireAmbiguous? && w.current in w.attempts
    ensures var w, e, s := worlds[i], moves[i].e, moves[i].s;
      var f := if ForReconciliation(w, e) then FindingOf(w, e) else NothingProved;
      && RecordsAtMost(w, worlds[i + 1], f, e.aftermath)
      && (AllDone(s, 0, 8) ==> Records(w, worlds[i + 1], f, e.aftermath))
  {
    var w, e, s := worlds[i], moves[i].e, moves[i].s;
    RunKeepsAgreement(worlds, moves, i);
    assert worlds[i + 1] == DriveNext(w, e, moves[i].jit, s);
    hide IsRun;
    ReconciliationAtMost(w, e, s, 1);
    if AllDone(s, 0, 8) { ReconciliationTable(w, e, s, 1); }
    hide Reconcile, FindingOf, Records, Agrees;
  }

  // ------------------------------------------------------------------- witnesses

  predicate AllDone(s: Script, from: nat, to: nat) {
    to <= |s| && forall i :: from <= i < to ==> s[i].Done?
  }

  /** A fresh attempt after `n - 1` absent ones, run without failures. */
  function StartedRun(n: nat): seq<Entry> {
    [Recorded(n, Intent), GenerateCalled(n), Recorded(n, Generated), Recorded(n, StartDispatching),
     StartSent(n), Recorded(n, Started)]
  }

  lemma GenerateAndStartSucceeds(w: World, jit: Issued, s: Script, k: nat)
    requires w.claim.Preparing? && AllDone(s, k, k + 10)
    ensures var r := GenerateAndStart(w, jit, s, k);
      r.journal == w.journal + StartedRun(w.current + 1) && r.claim == ClaimRunning
  {
    var begun := Begin(w, s[k + 1]).world;
    var called := Effect(begun, GenerateCalled(begun.current));
    var generated := MarkGenerated(called, jit.runnerID, jit.command, s[k + 4]).world;
    assert generated.journal == w.journal + StartedRun(w.current + 1)[..3];
    assert GenerateAndStart(w, jit, s, k) == Dispatch(generated, s, k + 6);
    var dispatching := Transition(generated, Generated, StartDispatching, ClaimStartDispatching, s[k + 6]).world;
    assert dispatching.journal == w.journal + StartedRun(w.current + 1)[..4];
  }

  /** Without failures a claim runs straight through to a started runner. */
  lemma StraightRun(w: World, e: Evidence, jit: Issued, s: Script)
    requires Created(w) && w.offered && AllDone(s, 0, 20)
    ensures var r := DriveNext(w, e, jit, s);
      r.journal == [AcquireRecorded(1), AcquireSent(1)] + StartedRun(1) && r.claim == ClaimRunning
  {
    var acquired := Acquire(w, s, 1).world;
    assert acquired.journal == [AcquireRecorded(1), AcquireSent(1)];
    GenerateAndStartSucceeds(Prepare(acquired, s, 7).world, jit, s, 10);
  }

  /** A crash right after the generate call leaves an attempt that a later process
      reconciles as absent; the claim then gets a second attempt. */
  lemma CrashedGenerationIsRetried(w: World, e: Evidence, jit: Issued, s: Script)
    requires w.claim.Preparing? && !w.requeue && |s| >= 20 && AllDone(s, 0, 20)
    requires e.online && e.identityCurrent && e.observation.None? && e.query.NoRunner? && e.aftermath.Retry?
    ensures var r := Perform(Perform(Perform(Perform(w, Drive(e, jit, s[..5])), Restart), Drive(e, jit, s)), Drive(e, jit, s));
      r.journal == w.journal + [Recorded(w.current + 1, Intent), GenerateCalled(w.current + 1),
        Recorded(w.current + 1, ReconciledAbsent)] + StartedRun(w.current + 2)
  {
    hide StartedRun, DriveNext, AllDone;
    CrashAfterGenerate(w, e, jit, s);
    RetriedAfterRestart(w, e, jit, s);
  }

  lemma RetriedAfterRestart(w: World, e: Evidence, jit: Issued, s: Script)
    requires w.claim.Preparing? && !w.requeue && |s| >= 20 && AllDone(s, 0, 20)
    requires e.online && e.identityCurrent && e.observation.None? && e.query.NoRunner? && e.aftermath.Retry?
    ensures DriveNext(DriveNext(Crashed(w).(epoch := w.epoch + 1), e, jit, s), e, jit, s).journal ==
      w.journal + [Recorded(w.current + 1, Intent), GenerateCalled(w.current + 1),
        Recorded(w.current + 1, ReconciledAbsent)] + StartedRun(w.current + 2)
  {
    hide DriveNext, StartedRun, AllDone;
    var restarted := Crashed(w).(epoch := w.epoch + 1);
    AbsentAfterRestart(restarted, e, jit, s);
    PreparingStarts(DriveNext(restarted, e, jit, s), e, jit, s);
    assert Crashed(w).journal + [Recorded(w.current + 1, ReconciledAbsent)] ==
      w.journal + [Recorded(w.current + 1, Intent), GenerateCalled(w.current + 1), Recorded(w.current + 1, ReconciledAbsent)];
  }

  /** The durable state a crash right after the generate call leaves behind. */
  function Crashed(w: World): World {
    w.(claim := ClaimIntent, current := w.current + 1,
       attempts := w.attempts[w.current + 1 := Attempt(w.epoch, Intent, 0, NO_COMMAND)],
       journal := w.journal + [Recorded(w.current + 1, Intent), GenerateCalled(w.current + 1)])
  }

  lemma PreparingStarts(w: World, e: Evidence, jit: Issued, s: Script)
    requires w.claim.Preparing? && AllDone(s, 0, 20)
    ensures DriveNext(w, e, jit, s).journal == w.journal + StartedRun(w.current + 1)
  {
    hide GenerateAndStart, StartedRun;
    GenerateAndStartSucceeds(w, jit, s, 1);
  }

  lemma CrashAfterGenerate(w: World, e: Evidence, jit: Issued, s: Script)
    requires w.claim.Preparing? && AllDone(s, 0, 20)
    ensures DriveNext(w, e, jit, s[..5]) == Crashed(w)
  {
    assert GenerateAndStart(w, jit, s[..5], 1) == Generate(Begin(w, Done).world, jit, s[..5], 4);
  }

  lemma AbsentAfterRestart(w: World, e: Evidence, jit: Issued, s: Script)
    requires w.claim == ClaimIntent && w.current in w.attempts && !w.requeue && AllDone(s, 0, 20)
    requires w.attempts[w.current] == Attempt(w.attempts[w.current].epoch, Intent, 0, NO_COMMAND)
    requires w.epoch > w.attempts[w.current].epoch
    requires e.online && e.identityCurrent && e.observation.None? && e.query.NoRunner? && e.aftermath.Retry?
    ensures var r := DriveNext(w, e, jit, s);
      && r.journal == w.journal + [Recorded(w.current, ReconciledAbsent)]
      && r.claim.Preparing? && r.current == w.current
  {
    assert Reconcile(w, e, s, 1) == ReconcileProvider(w, e, false, s, 1);
    assert ReconcileProvider(w, e, false, s, 1) == MarkReconciledAbsent(w, Retry, s[3]).world;
  }
}
