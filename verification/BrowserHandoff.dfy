/** The browser handoff ledger and the HTTP flows that use it: two two-phase operations
    with global fences, where the clock is read before the lock is taken
    (internal/auth/manager.go, internal/api/server.go).

    Codes are signed and identifiers and nonces random: a code stands for the values it
    authenticates, and a session nonce is never issued twice. */
module BrowserHandoff {
  import opened Common

  type HandoffID = nat

  type Digest = nat

  /** A Go uint64. */
  type Fence = f: nat | f <= MAX_UINT64

  /** Unix nanoseconds. */
  type Time = int

  const HANDOFF_TTL: int := 120_000_000_000
  const FUTURE_SKEW: int := 30_000_000_000

  datatype Code = Code(id: HandoffID, digest: Digest, expiresAt: Time)

  datatype Phase = Approving | Approved | Claiming | Claimed

  datatype Entry = Entry(digest: Digest, expiresAt: Time, phase: Phase, fence: Fence)

  datatype Ledger = Ledger(entries: map<HandoffID, Entry>, fence: Fence)

  datatype Approval = Approval(id: HandoffID, fence: Fence, needsAudit: bool)

  datatype Claim = Claim(id: HandoffID, fence: Fence)

  datatype HandoffError =
    | InvalidHandoff | ExpiredHandoff | PendingHandoff | ClaimInProgress | AlreadyClaimed | FenceMismatch

  datatype Outcome<+T> = Outcome(ledger: Ledger, result: Result<T, HandoffError>)

  // ------------------------------------------------------------------ sections

  /** The clock half of authentication; the signature is not modelled. */
  function Authenticate(code: Code, now: Time): Result<Code, HandoffError> {
    if code.expiresAt - HANDOFF_TTL > now + FUTURE_SKEW then Err(InvalidHandoff)
    else if now >= code.expiresAt then Err(ExpiredHandoff)
    else Ok(code)
  }

  function Unexpired(entries: map<HandoffID, Entry>, now: Time): map<HandoffID, Entry> {
    map id | id in entries && now < entries[id].expiresAt :: entries[id]
  }

  /** A uint64 counter that wraps past zero. */
  function NextFence(f: Fence): Fence {
    if f == MAX_UINT64 then 1 else f + 1
  }

  predicate SameCode(e: Entry, code: Code) {
    e.digest == code.digest && e.expiresAt == code.expiresAt
  }

  function Sweep(l: Ledger, now: Time): Ledger {
    l.(entries := Unexpired(l.entries, now))
  }

  function Put(l: Ledger, id: HandoffID, e: Entry): Ledger {
    l.(entries := l.entries[id := e])
  }

  function Drop(l: Ledger, id: HandoffID): Ledger {
    l.(entries := l.entries - {id})
  }

  function Approve(l: Ledger, code: Code, now: Time): Outcome<Approval> {
    var s := Sweep(l, now);
    if code.id in s.entries then
      if !SameCode(s.entries[code.id], code) then Outcome(s, Err(InvalidHandoff))
      else if s.entries[code.id].phase.Approving? then Outcome(s, Err(PendingHandoff))
      else Outcome(s, Ok(Approval(code.id, 0, false)))
    else
      var f := NextFence(s.fence);
      Outcome(Ledger(s.entries[code.id := Entry(code.digest, code.expiresAt, Approving, f)], f),
        Ok(Approval(code.id, f, true)))
  }

  predicate Fenced(l: Ledger, id: HandoffID, phase: Phase, fence: Fence) {
    id in l.entries && l.entries[id].phase == phase && l.entries[id].fence == fence
  }

  function CommitApproval(l: Ledger, a: Approval, now: Time): Outcome<()> {
    if !a.needsAudit then Outcome(l, Ok(()))
    else if !Fenced(l, a.id, Approving, a.fence) then Outcome(l, Err(FenceMismatch))
    else if now >= l.entries[a.id].expiresAt then Outcome(Drop(l, a.id), Err(ExpiredHandoff))
    else Outcome(Put(l, a.id, l.entries[a.id].(phase := Approved)), Ok(()))
  }

  function RollbackApproval(l: Ledger, a: Approval): Outcome<()> {
    if !a.needsAudit then Outcome(l, Ok(()))
    else if !Fenced(l, a.id, Approving, a.fence) then Outcome(l, Err(FenceMismatch))
    else Outcome(Drop(l, a.id), Ok(()))
  }

  function BeginClaim(l: Ledger, code: Code, now: Time): Outcome<Claim> {
    var s := Sweep(l, now);
    if code.id !in s.entries then Outcome(s, Err(PendingHandoff))
    else if !SameCode(s.entries[code.id], code) then Outcome(s, Err(InvalidHandoff))
    else
      match s.entries[code.id].phase
      case Approving => Outcome(s, Err(PendingHandoff))
      case Approved =>
        var f := NextFence(s.fence);
        Outcome(Ledger(s.entries[code.id := s.entries[code.id].(fence := f, phase := Claiming)], f), Ok(Claim(code.id, f)))
      case Claiming => Outcome(s, Err(ClaimInProgress))
      case Claimed => Outcome(s, Err(AlreadyClaimed))
  }

  function CommitClaim(l: Ledger, c: Claim, now: Time): Outcome<()> {
    if !Fenced(l, c.id, Claiming, c.fence) then Outcome(l, Err(FenceMismatch))
    else if now >= l.entries[c.id].expiresAt then Outcome(Drop(l, c.id), Err(ExpiredHandoff))
    else Outcome(Put(l, c.id, l.entries[c.id].(phase := Claimed)), Ok(()))
  }

  /** The clock is read again, inside the lock. */
  function RollbackClaim(l: Ledger, c: Claim, now: Time): Outcome<()> {
    if !Fenced(l, c.id, Claiming, c.fence) then Outcome(l, Err(FenceMismatch))
    else if now >= l.entries[c.id].expiresAt then Outcome(Drop(l, c.id), Err(ExpiredHandoff))
    else Outcome(Put(l, c.id, l.entries[c.id].(phase := Approved)), Ok(()))
  }

  class Manager {
    var browserHandoffs: map<HandoffID, Entry>
    var browserHandoffFence: Fence
    var activeSessions: map<nat, Time>

    ghost function View(): Ledger
      reads this
    {
      Ledger(browserHandoffs, browserHandoffFence)
    }

    constructor ()
      ensures View() == Ledger(map[], 0) && activeSessions == map[]
    {
      browserHandoffs, browserHandoffFence, activeSessions := map[], 0, map[];
    }

    method ExpireBrowserHandoffs(now: Time)
      modifies this`browserHandoffs
      ensures View() == Sweep(old(View()), now)
    {
      var pending := browserHandoffs.Keys;
      while pending != {}
        invariant pending <= old(browserHandoffs).Keys
        invariant browserHandoffs.Keys <= old(browserHandoffs).Keys
        invariant forall id :: id in old(browserHandoffs) ==>
          (id in browserHandoffs <==> id in pending || now < old(browserHandoffs)[id].expiresAt)
        invariant forall id :: id in browserHandoffs ==> browserHandoffs[id] == old(browserHandoffs)[id]
        decreases |pending|
      {
        var id :| id in pending;
        pending := pending - {id};
        if now >= browserHandoffs[id].expiresAt {
          browserHandoffs := browserHandoffs - {id};
        }
      }
    }

    method NextBrowserHandoffFence() returns (f: Fence)
      modifies this`browserHandoffFence
      ensures f == browserHandoffFence == NextFence(old(browserHandoffFence))
    {
      f := if browserHandoffFence == MAX_UINT64 then 0 else browserHandoffFence + 1;
      if f == 0 { f := f + 1; }
      browserHandoffFence := f;
    }

    method ApproveBrowserHandoff(code: Code, now: Time) returns (r: Result<Approval, HandoffError>)
      modifies this
      ensures Outcome(View(), r) == Approve(old(View()), code, now)
      ensures activeSessions == old(activeSessions)
    {
      ExpireBrowserHandoffs(now);
      if code.id in browserHandoffs {
        var entry := browserHandoffs[code.id];
        if !SameCode(entry, code) { return Err(InvalidHandoff); }
        match entry.phase {
          case Approving => return Err(PendingHandoff);
          case _ => return Ok(Approval(code.id, 0, false));
        }
      }
      var fence := NextBrowserHandoffFence();
      browserHandoffs := browserHandoffs[code.id := Entry(code.digest, code.expiresAt, Approving, fence)];
      r := Ok(Approval(code.id, fence, true));
    }

    method CommitBrowserHandoffApproval(a: Approval, now: Time) returns (r: Result<(), HandoffError>)
      modifies this`browserHandoffs
      ensures Outcome(View(), r) == CommitApproval(old(View()), a, now)
    {
      if !a.needsAudit { return Ok(()); }
      if a.id !in browserHandoffs { return Err(FenceMismatch); }
      var entry := browserHandoffs[a.id];
      if entry.phase != Approving || entry.fence != a.fence { return Err(FenceMismatch); }
      if now >= entry.expiresAt {
        browserHandoffs := browserHandoffs - {a.id};
        return Err(ExpiredHandoff);
      }
      browserHandoffs := browserHandoffs[a.id := entry.(phase := Approved)];
      r := Ok(());
    }

    method RollbackBrowserHandoffApproval(a: Approval) returns (r: Result<(), HandoffError>)
      modifies this`browserHandoffs
      ensures Outcome(View(), r) == RollbackApproval(old(View()), a)
    {
      if !a.needsAudit { return Ok(()); }
      if a.id !in browserHandoffs { return Err(FenceMismatch); }
      var entry := browserHandoffs[a.id];
      if entry.phase != Approving || entry.fence != a.fence { return Err(FenceMismatch); }
      browserHandoffs := browserHandoffs - {a.id};
      r := Ok(());
    }

    method ClaimBrowserHandoff(code: Code, now: Time) returns (r: Result<Claim, HandoffError>)
      modifies this
      ensures Outcome(View(), r) == BeginClaim(old(View()), code, now)
      ensures activeSessions == old(activeSessions)
    {
      ExpireBrowserHandoffs(now);
      if code.id !in browserHandoffs { return Err(PendingHandoff); }
      var entry := browserHandoffs[code.id];
      if !SameCode(entry, code) { return Err(InvalidHandoff); }
      match entry.phase {
        case Approving => return Err(PendingHandoff);
        case Claiming => return Err(ClaimInProgress);
        case Claimed => return Err(AlreadyClaimed);
        case Approved =>
          var fence := NextBrowserHandoffFence();
          entry := entry.(fence := fence, phase := Claiming);
          browserHandoffs := browserHandoffs[code.id := entry];
          r := Ok(Claim(code.id, fence));
      }
    }

    method CommitBrowserHandoffClaim(c: Claim, now: Time) returns (r: Result<(), HandoffError>)
      modifies this`browserHandoffs
      ensures Outcome(View(), r) == CommitClaim(old(View()), c, now)
    {
      if c.id !in browserHandoffs { return Err(FenceMismatch); }
      var entry := browserHandoffs[c.id];
      if entry.phase != Claiming || entry.fence != c.fence { return Err(FenceMismatch); }
      if now >= entry.expiresAt {
        browserHandoffs := browserHandoffs - {c.id};
        return Err(ExpiredHandoff);
      }
      browserHandoffs := browserHandoffs[c.id := entry.(phase := Claimed)];
      r := Ok(());
    }

    method RollbackBrowserHandoffClaim(c: Claim, now: Time) returns (r: Result<(), HandoffError>)
      modifies this`browserHandoffs
      ensures Outcome(View(), r) == RollbackClaim(old(View()), c, now)
    {
      if c.id !in browserHandoffs { return Err(FenceMismatch); }
      var entry := browserHandoffs[c.id];
      if entry.phase != Claiming || entry.fence != c.fence { return Err(FenceMismatch); }
      if now >= entry.expiresAt {
        browserHandoffs := browserHandoffs - {c.id};
        return Err(ExpiredHandoff);
      }
      browserHandoffs := browserHandoffs[c.id := entry.(phase := Approved)];
      r := Ok(());
    }

    /** The nonce is random; sessions already expired are revoked on the way. */
    method IssueSession(nonce: nat, now: Time, sessionTTL: Time)
      modifies this`activeSessions
      ensures activeSessions == Live(old(activeSessions), now)[nonce := now + sessionTTL]
    {
      var pending := activeSessions.Keys;
      while pending != {}
        invariant pending <= old(activeSessions).Keys
        invariant activeSessions.Keys <= old(activeSessions).Keys
        invariant forall n :: n in old(activeSessions) ==>
          (n in activeSessions <==> n in pending || now < old(activeSessions)[n])
        invariant forall n :: n in activeSessions ==> activeSessions[n] == old(activeSessions)[n]
        decreases |pending|
      {
        var n :| n in pending;
        pending := pending - {n};
        if now >= activeSessions[n] { RevokeSession(n); }
      }
      activeSessions := activeSessions[nonce := now + sessionTTL];
    }

    method RevokeSession(nonce: nat)
      modifies this`activeSessions
      ensures activeSessions == old(activeSessions) - {nonce}
    {
      if nonce in activeSessions {
        activeSessions := activeSessions - {nonce};
      }
    }
  }

  /** The clock values one request reads, in this order, and what fails on its way. */
  datatype Readings = Readings(authenticate: Time, lock: Time, session: Time, end: Time)

  datatype FlowError = Refused(error: HandoffError) | FlowUnavailable

  /** The HTTP handlers, each run by itself. */
  class Server {
    const auth: Manager

    constructor (auth: Manager)
      ensures this.auth == auth
    {
      this.auth := auth;
    }

    /** The approval is committed only after its audit record; every failure takes it back. */
    method AuthorizeBrowserHandoff(code: Code, t: Readings, audited: bool) returns (r: Result<(), FlowError>)
      modifies auth
      ensures var kept := code.id in old(auth.browserHandoffs) && t.lock < old(auth.browserHandoffs)[code.id].expiresAt;
        r.Ok? <==>
          && code.expiresAt - HANDOFF_TTL <= t.authenticate + FUTURE_SKEW && t.authenticate < code.expiresAt
          && (if kept then SameCode(old(auth.browserHandoffs)[code.id], code) && !old(auth.browserHandoffs)[code.id].phase.Approving?
              else audited && t.end < code.expiresAt)
      ensures r == Err(FlowUnavailable) <==>
        && r.Err? && code.expiresAt - HANDOFF_TTL <= t.authenticate + FUTURE_SKEW && t.authenticate < code.expiresAt
        && !(code.id in old(auth.browserHandoffs) && t.lock < old(auth.browserHandoffs)[code.id].expiresAt)
      ensures r.Ok? ==>
        && code.id in auth.browserHandoffs && SameCode(auth.browserHandoffs[code.id], code)
        && !auth.browserHandoffs[code.id].phase.Approving?
      ensures code.id !in old(auth.browserHandoffs) && r.Err? ==> code.id !in auth.browserHandoffs
      ensures code.id !in old(auth.browserHandoffs) && r.Ok? ==> audited && auth.browserHandoffs[code.id].phase.Approved?
      ensures OthersKept(old(auth.browserHandoffs), auth.browserHandoffs, code.id, t.lock)
      ensures auth.activeSessions == old(auth.activeSessions)
    {
      var authentic := Authenticate(code, t.authenticate);
      if authentic.Err? { return Err(Refused(authentic.error)); }
      var approval := auth.ApproveBrowserHandoff(code, t.lock);
      if approval.Err? { return Err(Refused(approval.error)); }
      if !approval.value.needsAudit { return Ok(()); }
      if !audited {
        var undone := auth.RollbackBrowserHandoffApproval(approval.value);
        return Err(FlowUnavailable);
      }
      var committed := auth.CommitBrowserHandoffApproval(approval.value, t.end);
      r := if committed.Err? then Err(FlowUnavailable) else Ok(());
    }

    /** The session is issued before the claim commits and revoked on every failure. */
    method ClaimHandoff(code: Code, t: Readings, nonce: nat, sessionTTL: Time, issued: bool, audited: bool, csrf: bool)
      returns (r: Result<nat, FlowError>)
      requires nonce !in auth.activeSessions
      modifies auth
      ensures r.Ok? <==>
        && code.expiresAt - HANDOFF_TTL <= t.authenticate + FUTURE_SKEW && t.authenticate < code.expiresAt
        && Claimable(old(auth.browserHandoffs), code, t.lock)
        && issued && audited && csrf && t.end < code.expiresAt
      ensures r == Err(FlowUnavailable) <==>
        && r.Err? && code.expiresAt - HANDOFF_TTL <= t.authenticate + FUTURE_SKEW && t.authenticate < code.expiresAt
        && Claimable(old(auth.browserHandoffs), code, t.lock)
      ensures r.Ok? ==>
        && r.value == nonce
        && code.id in auth.browserHandoffs && SameCode(auth.browserHandoffs[code.id], code)
        && auth.browserHandoffs[code.id].phase.Claimed?
      ensures r.Ok? ==>
        && nonce in auth.activeSessions && auth.activeSessions[nonce] == t.session + sessionTTL
        && forall n :: n != nonce ==>
             (n in auth.activeSessions <==> n in old(auth.activeSessions) && t.session < old(auth.activeSessions)[n])
      ensures r.Err? ==>
        && auth.activeSessions.Keys <= old(auth.activeSessions).Keys
        && forall n :: n in old(auth.activeSessions) && t.session < old(auth.activeSessions)[n] ==> n in auth.activeSessions
      ensures forall n :: n in auth.activeSessions && n != nonce ==>
        n in old(auth.activeSessions) && auth.activeSessions[n] == old(auth.activeSessions)[n]
      ensures code.id in old(auth.browserHandoffs) && old(auth.browserHandoffs)[code.id].phase.Approved? && r.Err? ==>
        code.id !in auth.browserHandoffs || auth.browserHandoffs[code.id].phase.Approved?
      ensures r.Err? && Claimable(old(auth.browserHandoffs), code, t.lock) && t.end < code.expiresAt ==>
        Claimable(auth.browserHandoffs, code, t.lock)
      ensures OthersKept(old(auth.browserHandoffs), auth.browserHandoffs, code.id, t.lock)
    {
      var authentic := Authenticate(code, t.authenticate);
      if authentic.Err? { return Err(Refused(authentic.error)); }
      var claim := auth.ClaimBrowserHandoff(code, t.lock);
      if claim.Err? { return Err(Refused(claim.error)); }
      if !issued {
        var undone := auth.RollbackBrowserHandoffClaim(claim.value, t.end);
        return Err(FlowUnavailable);
      }
      auth.IssueSession(nonce, t.session, sessionTTL);
      if !audited || !csrf {
        auth.RevokeSession(nonce);
        var undone := auth.RollbackBrowserHandoffClaim(claim.value, t.end);
        return Err(FlowUnavailable);
      }
      var committed := auth.CommitBrowserHandoffClaim(claim.value, t.end);
      if committed.Err? {
        auth.RevokeSession(nonce);
        return Err(FlowUnavailable);
      }
      r := Ok(nonce);
    }
  }

  /** The code was approved, and its entry has not expired. */
  predicate Claimable(entries: map<HandoffID, Entry>, code: Code, now: Time) {
    code.id in entries && SameCode(entries[code.id], code) && entries[code.id].phase.Approved? && now < code.expiresAt
  }

  /** Entries of other codes only go when they have expired. */
  ghost predicate OthersKept(before: map<HandoffID, Entry>, after: map<HandoffID, Entry>, id: HandoffID, now: Time) {
    && (forall i :: i in after && i != id ==> i in before && after[i] == before[i])
    && (forall i :: i in before && i != id && now < before[i].expiresAt ==> i in after)
  }

  function Live(sessions: map<nat, Time>, now: Time): map<nat, Time> {
    map n | n in sessions && now < sessions[n] :: sessions[n]
  }

  // -------------------------------------------------------------------- fences

  /** The fence handed out by the n-th allocation. */
  function FenceAfter(n: nat): Fence {
    if n == 0 then 0 else NextFence(FenceAfter(n - 1))
  }

  /** Allocations get equal fences exactly when a multiple of 2^64 - 1 apart. */
  lemma {:induction false} FencesRepeatAfterWrap(m: nat, n: nat)
    requires 0 < m <= n
    ensures FenceAfter(m) == FenceAfter(n) <==> (n - m) % MAX_UINT64 == 0
  {
    FenceValue(m);
    FenceValue(n);
  }

  lemma {:induction false} FenceValue(n: nat)
    requires n > 0
    ensures FenceAfter(n) == (n - 1) % MAX_UINT64 + 1
  {
    if n > 1 { FenceValue(n - 1); }
  }

  // ------------------------------------------------------------------- machine

  /** One HTTP request. */
  type RequestID = nat

  type Nonce = nat

  /** Where a request stands between two lock sections. A stage ending in Read holds a
      clock value that was read before the lock is taken. */
  datatype Stage =
    | IssueRead(now: Time)
    | ApproveAuthenticated(code: Code)
    | ApproveRead(code: Code, now: Time)
    | ApprovalAudit(code: Code, approval: Approval)
    | ApprovalRollback(code: Code, approval: Approval)
    | ApprovalCommit(code: Code, approval: Approval)
    | ApprovalCommitRead(code: Code, approval: Approval, now: Time)
    | ClaimAuthenticated(code: Code)
    | ClaimRead(code: Code, now: Time)
    | SessionDue(code: Code, claim: Claim)
    | SessionRead(code: Code, claim: Claim, now: Time)
    | ClaimAudit(code: Code, claim: Claim, session: Nonce)
    | ClaimCommit(code: Code, claim: Claim, session: Nonce)
    | ClaimCommitRead(code: Code, claim: Claim, session: Nonce, now: Time)
    | Revoke(code: Code, claim: Claim, session: Nonce, thenRollback: bool)
    | ClaimRollback(code: Code, claim: Claim, revoked: Option<Nonce>)
    | Done
    | ClaimDone(code: Code, session: Nonce, committed: bool)

  /** A fence allocation: for which code and phase, and the clock at that moment. */
  datatype Grant = Grant(code: Code, phase: Phase, born: Time)

  datatype Committed = Committed(request: RequestID, code: Code)

  /** Everything after `requests` is history: fence allocations, fences whose operation
      has ended, codes whose approval was audited, successful claim commits, and sessions
      ended by expiry or logout. */
  datatype State = State(
    clock: Time,
    ledger: Ledger,
    sessions: map<Nonce, Time>,
    issued: set<Nonce>,
    requests: map<RequestID, Stage>,
    grants: seq<Grant>,
    spent: set<Fence>,
    audited: set<Code>,
    commits: seq<Committed>,
    retired: set<Nonce>)

  datatype Event =
    | Tick(to: Time)
    | ArriveIssue(p: RequestID)
    | ArriveApprove(p: RequestID, code: Code)
    | ArriveClaim(p: RequestID, code: Code)
    | Continue(p: RequestID, ok: bool, nonce: Nonce, sessionTTL: Time)
    | Retire(session: Nonce)

  predicate Initial(s: State) {
    s == State(s.clock, Ledger(map[], 0), map[], {}, map[], [], {}, {}, [], {})
  }

  /** The clock never runs backwards, requests are new, and nonces are fresh. */
  predicate Enabled(s: State, e: Event) {
    match e
    case Tick(to) => to >= s.clock
    case ArriveIssue(p) => p !in s.requests
    case ArriveApprove(p, code) => p !in s.requests && Authenticate(code, s.clock).Ok?
    case ArriveClaim(p, code) => p !in s.requests && Authenticate(code, s.clock).Ok?
    case Continue(p, _, nonce, _) => p in s.requests && nonce !in s.issued
    case Retire(_) => true
  }

  function At(s: State, p: RequestID, stage: Stage): State {
    s.(requests := s.requests[p := stage])
  }

  function Apply<T>(s: State, o: Outcome<T>): State {
    s.(ledger := o.ledger)
  }

  function Allocated(s: State, code: Code, phase: Phase): State {
    s.(grants := s.grants + [Grant(code, phase, s.clock)])
  }

  function Spent(s: State, f: Fence): State {
    s.(spent := s.spent + {f})
  }

  function Step(s: State, e: Event): State {
    match e
    case Tick(to) => s.(clock := to)
    case ArriveIssue(p) => At(s, p, IssueRead(s.clock))
    case ArriveApprove(p, code) => At(s, p, ApproveAuthenticated(code))
    case ArriveClaim(p, code) => At(s, p, ClaimAuthenticated(code))
    case Retire(n) => s.(sessions := s.sessions - {n}, retired := s.retired + {n})
    case Continue(p, ok, nonce, ttl) =>
      if p !in s.requests then s else Proceed(s, p, s.requests[p], ok, nonce, ttl)
  }

  function Proceed(s: State, p: RequestID, stage: Stage, ok: bool, nonce: Nonce, ttl: Time): State {
    match stage
    case IssueRead(now) => At(s.(ledger := Sweep(s.ledger, now)), p, Done)
    case ApproveAuthenticated(code) => At(s, p, ApproveRead(code, s.clock))
    case ApproveRead(code, now) =>
      var o := Approve(s.ledger, code, now);
      if o.result.Ok? && o.result.value.needsAudit then
        At(Allocated(Apply(s, o), code, Approving), p, ApprovalAudit(code, o.result.value))
      else At(Apply(s, o), p, Done)
    case ApprovalAudit(code, a) =>
      if ok then At(s.(audited := s.audited + {code}), p, ApprovalCommit(code, a))
      else At(s, p, ApprovalRollback(code, a))
    case ApprovalRollback(code, a) => Spent(At(Apply(s, RollbackApproval(s.ledger, a)), p, Done), a.fence)
    case ApprovalCommit(code, a) => At(s, p, ApprovalCommitRead(code, a, s.clock))
    case ApprovalCommitRead(code, a, now) => Spent(At(Apply(s, CommitApproval(s.ledger, a, now)), p, Done), a.fence)
    case ClaimAuthenticated(code) => At(s, p, ClaimRead(code, s.clock))
    case ClaimRead(code, now) =>
      var o := BeginClaim(s.ledger, code, now);
      if o.result.Ok? then At(Allocated(Apply(s, o), code, Claiming), p, SessionDue(code, o.result.value))
      else At(Apply(s, o), p, Done)
    case SessionDue(code, c) =>
      if ok then At(s, p, SessionRead(code, c, s.clock)) else At(s, p, ClaimRollback(code, c, None))
    case SessionRead(code, c, now) =>
      var live := Live(s.sessions, now);
      At(s.(sessions := live[nonce := now + ttl], issued := s.issued + {nonce},
            retired := s.retired + (s.sessions.Keys - live.Keys)), p, ClaimAudit(code, c, nonce))
    case ClaimAudit(code, c, n) =>
      if ok then At(s, p, ClaimCommit(code, c, n)) else At(s, p, Revoke(code, c, n, true))
    case ClaimCommit(code, c, n) => At(s, p, ClaimCommitRead(code, c, n, s.clock))
    case ClaimCommitRead(code, c, n, now) =>
      var o := CommitClaim(s.ledger, c, now);
      var t := Spent(Apply(s, o), c.fence);
      if o.result.Ok? then At(t.(commits := t.commits + [Committed(p, code)]), p, ClaimDone(code, n, true))
      else At(t, p, Revoke(code, c, n, false))
    case Revoke(code, c, n, rollback) =>
      At(s.(sessions := s.sessions - {n}), p,
        if rollback then ClaimRollback(code, c, Some(n)) else ClaimDone(code, n, false))
    case ClaimRollback(code, c, revoked) =>
      Spent(At(Apply(s, RollbackClaim(s.ledger, c, s.clock)), p,
        if revoked.Some? then ClaimDone(code, revoked.value, false) else Done), c.fence)
    case Done => s
    case ClaimDone(_, _, _) => s
  }

  ghost predicate IsRun(states: seq<State>, events: seq<Event>) {
    && |states| == |events| + 1
    && Initial(states[0])
    && forall i :: 0 <= i < |events| ==> Enabled(states[i], events[i]) && states[i + 1] == Step(states[i], events[i])
  }

  // ------------------------------------------------------------ ledger invariant

  predicate InUse(e: Entry) {
    e.phase.Approving? || e.phase.Claiming?
  }

  predicate GrantedFor(s: State, f: Fence, code: Code) {
    0 < f <= |s.grants| && s.grants[f - 1].code == code
  }

  predicate TokenFor(s: State, id: HandoffID, f: Fence, code: Code, phase: Phase) {
    id == code.id && GrantedFor(s, f, code) && s.grants[f - 1].phase == phase
  }

  ghost predicate EntryInv(s: State, id: HandoffID, e: Entry) {
    && GrantedFor(s, e.fence, Code(id, e.digest, e.expiresAt))
    && (InUse(e) ==> e.fence !in s.spent && s.grants[e.fence - 1].phase == e.phase)
    && (!e.phase.Approving? ==> Code(id, e.digest, e.expiresAt) in s.audited)
  }

  /** The token a request holds was granted for its code, and its clock readings are past. */
  ghost predicate StageInv(s: State, p: RequestID, stage: Stage) {
    match stage
    case IssueRead(now) => now <= s.clock
    case ApproveRead(_, now) => now <= s.clock
    case ClaimRead(_, now) => now <= s.clock
    case ApprovalAudit(code, a) => a.needsAudit && TokenFor(s, a.id, a.fence, code, Approving)
    case ApprovalRollback(code, a) => a.needsAudit && TokenFor(s, a.id, a.fence, code, Approving)
    case ApprovalCommit(code, a) => a.needsAudit && TokenFor(s, a.id, a.fence, code, Approving) && code in s.audited
    case ApprovalCommitRead(code, a, now) =>
      && a.needsAudit && TokenFor(s, a.id, a.fence, code, Approving) && code in s.audited
      && s.grants[a.fence - 1].born <= now <= s.clock
    case SessionDue(code, c) => TokenFor(s, c.id, c.fence, code, Claiming)
    case SessionRead(code, c, _) => TokenFor(s, c.id, c.fence, code, Claiming)
    case ClaimAudit(code, c, _) => TokenFor(s, c.id, c.fence, code, Claiming)
    case ClaimCommit(code, c, _) => TokenFor(s, c.id, c.fence, code, Claiming)
    case ClaimCommitRead(code, c, _, now) => TokenFor(s, c.id, c.fence, code, Claiming) && now <= s.clock
    case Revoke(code, c, _, _) => TokenFor(s, c.id, c.fence, code, Claiming)
    case ClaimRollback(code, c, _) => TokenFor(s, c.id, c.fence, code, Claiming)
    case ClaimDone(code, _, committed) => committed ==> Committed(p, code) in s.commits
    case _ => true
  }

  /** A claimed code stays claimed until it expires; an entry made for it after that is
      too young for any approval to be committed before the expiry. */
  ghost predicate Settled(s: State, code: Code) {
    || (code.id in s.ledger.entries && SameCode(s.ledger.entries[code.id], code) && s.ledger.entries[code.id].phase.Claimed?)
    || (&& s.clock >= code.expiresAt
        && (code.id in s.ledger.entries && SameCode(s.ledger.entries[code.id], code) ==>
              var e := s.ledger.entries[code.id];
              e.phase.Approving? && GrantedFor(s, e.fence, code) && s.grants[e.fence - 1].born >= code.expiresAt))
  }

  ghost predicate LedgerInv(s: State) {
    && s.ledger.fence == |s.grants|
    && (forall f :: f in s.spent ==> 0 < f <= |s.grants|)
    && (forall i :: 0 <= i < |s.grants| ==> s.grants[i].born <= s.clock)
    && (forall id :: id in s.ledger.entries ==> EntryInv(s, id, s.ledger.entries[id]))
    && (forall p :: p in s.requests ==> StageInv(s, p, s.requests[p]))
    && (forall c :: c in s.commits ==> Settled(s, c.code) && c.code in s.audited)
    && (forall i, j :: 0 <= i < j < |s.commits| ==> s.commits[i].code != s.commits[j].code)
  }

  // ------------------------------------------- what each part of a step leaves true

  lemma MoveKeepsLedger(s: State, p: RequestID, stage: Stage)
    requires LedgerInv(s) && StageInv(s, p, stage)
    ensures LedgerInv(At(s, p, stage))
  {
    var t := At(s, p, stage);
    assert forall q, st :: StageInv(s, q, st) ==> StageInv(t, q, st);
    assert forall id, e :: EntryInv(s, id, e) ==> EntryInv(t, id, e);
    assert forall c :: Settled(s, c) ==> Settled(t, c);
    hide StageInv, EntryInv, Settled;
  }

  lemma AuditKeepsLedger(s: State, code: Code)
    requires LedgerInv(s)
    ensures LedgerInv(s.(audited := s.audited + {code}))
  {
    var t := s.(audited := s.audited + {code});
    assert forall q, st :: StageInv(s, q, st) ==> StageInv(t, q, st);
    assert forall id, e :: EntryInv(s, id, e) ==> EntryInv(t, id, e);
    assert forall c :: Settled(s, c) ==> Settled(t, c);
    hide StageInv, EntryInv, Settled;
  }

  lemma TickKeepsLedger(s: State, to: Time)
    requires LedgerInv(s) && to >= s.clock
    ensures LedgerInv(s.(clock := to))
  {
    var t := s.(clock := to);
    assert forall q, st :: StageInv(s, q, st) ==> StageInv(t, q, st);
    assert forall id, e :: EntryInv(s, id, e) ==> EntryInv(t, id, e);
    assert forall c :: Settled(s, c) ==> Settled(t, c);
    hide StageInv, EntryInv, Settled;
  }

  /** The end of an operation whose fence matches no entry any more. */
  lemma SpendKeepsLedger(s: State, f: Fence)
    requires LedgerInv(s) && 0 < f <= |s.grants|
    requires forall id :: id in s.ledger.entries && InUse(s.ledger.entries[id]) ==> s.ledger.entries[id].fence != f
    ensures LedgerInv(Spent(s, f))
  {
    var t := Spent(s, f);
    assert forall q, st :: StageInv(s, q, st) ==> StageInv(t, q, st);
    assert forall id :: id in s.ledger.entries ==> EntryInv(t, id, s.ledger.entries[id]);
    assert forall c :: Settled(s, c) ==> Settled(t, c);
    hide StageInv, EntryInv, Settled;
  }

  lemma SweepKeepsLedger(s: State, now: Time)
    requires LedgerInv(s) && now <= s.clock
    ensures LedgerInv(s.(ledger := Sweep(s.ledger, now)))
  {
    var t := s.(ledger := Sweep(s.ledger, now));
    assert forall q, st :: StageInv(s, q, st) ==> StageInv(t, q, st);
    assert forall id, e :: EntryInv(s, id, e) ==> EntryInv(t, id, e);
    assert forall c :: Settled(s, c) ==> Settled(t, c);
    hide StageInv, EntryInv, Settled;
  }

  lemma DropKeepsLedger(s: State, id: HandoffID)
    requires LedgerInv(s) && id in s.ledger.entries && InUse(s.ledger.entries[id])
    ensures LedgerInv(s.(ledger := Drop(s.ledger, id)))
  {
    var t := s.(ledger := Drop(s.ledger, id));
    assert forall q, st :: StageInv(s, q, st) ==> StageInv(t, q, st);
    assert forall i, e :: EntryInv(s, i, e) ==> EntryInv(t, i, e);
    assert forall c :: Settled(s, c) ==> Settled(t, c);
    hide StageInv, EntryInv, Settled;
  }

  /** An entry not claimed and not too young moves on; no settled code is affected. */
  lemma PutKeepsLedger(s: State, id: HandoffID, phase: Phase)
    requires LedgerInv(s) && id in s.ledger.entries
    requires var e := s.ledger.entries[id];
      && (e.phase.Approving? ==> 0 < e.fence <= |s.grants| && s.grants[e.fence - 1].born < e.expiresAt)
      && InUse(e) && !InUse(e.(phase := phase)) && Code(id, e.digest, e.expiresAt) in s.audited
    ensures LedgerInv(s.(ledger := Put(s.ledger, id, s.ledger.entries[id].(phase := phase))))
    ensures forall c :: c in s.commits ==> c.code != Code(id, s.ledger.entries[id].digest, s.ledger.entries[id].expiresAt)
  {
    var t := s.(ledger := Put(s.ledger, id, s.ledger.entries[id].(phase := phase)));
    var code := Code(id, s.ledger.entries[id].digest, s.ledger.entries[id].expiresAt);
    assert EntryInv(s, id, s.ledger.entries[id]);
    assert !Settled(s, code);
    assert EntryInv(t, id, t.ledger.entries[id]);
    assert forall q, st :: StageInv(s, q, st) ==> StageInv(t, q, st);
    assert forall i, e :: EntryInv(s, i, e) ==> EntryInv(t, i, e);
    assert forall c :: c != code && Settled(s, c) ==> Settled(t, c);
    hide StageInv, EntryInv, Settled;
  }

  /** A fence is allocated for a new entry, or for the claim of an approved one. */
  lemma GrantKeepsLedger(s: State, code: Code, phase: Phase)
    requires LedgerInv(s) && |s.grants| < MAX_UINT64
    requires if code.id in s.ledger.entries
      then phase.Claiming? && s.ledger.entries[code.id].phase.Approved? && SameCode(s.ledger.entries[code.id], code)
      else phase.Approving?
    ensures var f := |s.grants| + 1;
      LedgerInv(Allocated(s, code, phase).(
        ledger := Ledger(s.ledger.entries[code.id := Entry(code.digest, code.expiresAt, phase, f)], f)))
  {
    var f := |s.grants| + 1;
    var e := Entry(code.digest, code.expiresAt, phase, f);
    var t := Allocated(s, code, phase).(ledger := Ledger(s.ledger.entries[code.id := e], f));
    if code.id in s.ledger.entries {
      assert EntryInv(s, code.id, s.ledger.entries[code.id]);
      assert !Settled(s, code);
    }
    assert t.grants[f - 1] == Grant(code, phase, s.clock);
    assert EntryInv(t, code.id, e);
    assert forall c, g: Fence :: GrantedFor(s, g, c) ==> GrantedFor(t, g, c) && t.grants[g - 1] == s.grants[g - 1];
    assert forall q, st :: StageInv(s, q, st) ==> StageInv(t, q, st);
    assert forall i, x :: EntryInv(s, i, x) ==> EntryInv(t, i, x);
    assert forall c :: Settled(s, c) ==> Settled(t, c);
    hide StageInv, EntryInv, Settled;
  }

  // ------------------------------------------------------------- every step keeps it

  lemma ApproveKeepsLedger(s: State, p: RequestID, code: Code, now: Time)
    requires LedgerInv(s) && now <= s.clock && |s.grants| < MAX_UINT64
    ensures var o := Approve(s.ledger, code, now);
      LedgerInv(
        if o.result.Ok? && o.result.value.needsAudit then
          At(Allocated(Apply(s, o), code, Approving), p, ApprovalAudit(code, o.result.value))
        else At(Apply(s, o), p, Done))
  {
    SweepKeepsLedger(s, now);
    var swept := s.(ledger := Sweep(s.ledger, now));
    var o := Approve(s.ledger, code, now);
    assert s.ledger.fence == |s.grants|;
    hide LedgerInv, Unexpired;
    if o.result.Ok? && o.result.value.needsAudit {
      GrantKeepsLedger(swept, code, Approving);
      MoveKeepsLedger(Allocated(Apply(s, o), code, Approving), p, ApprovalAudit(code, o.result.value));
    } else {
      MoveKeepsLedger(swept, p, Done);
    }
  }

  lemma BeginClaimKeepsLedger(s: State, p: RequestID, code: Code, now: Time)
    requires LedgerInv(s) && now <= s.clock && |s.grants| < MAX_UINT64
    ensures var o := BeginClaim(s.ledger, code, now);
      LedgerInv(
        if o.result.Ok? then At(Allocated(Apply(s, o), code, Claiming), p, SessionDue(code, o.result.value))
        else At(Apply(s, o), p, Done))
  {
    SweepKeepsLedger(s, now);
    var swept := s.(ledger := Sweep(s.ledger, now));
    var o := BeginClaim(s.ledger, code, now);
    assert s.ledger.fence == |s.grants|;
    hide LedgerInv, Unexpired;
    if o.result.Ok? {
      GrantKeepsLedger(swept, code, Claiming);
      MoveKeepsLedger(Allocated(Apply(s, o), code, Claiming), p, SessionDue(code, o.result.value));
    } else {
      MoveKeepsLedger(swept, p, Done);
    }
  }

  /** Ending an operation, once its fence has stopped matching. */
  lemma EndKeepsLedger(t: State, p: RequestID, stage: Stage, f: Fence, phase: Phase, code: Code)
    requires LedgerInv(t) && TokenFor(t, code.id, f, code, phase) && !Fenced(t.ledger, code.id, phase, f)
    requires StageInv(t, p, stage)
    ensures LedgerInv(Spent(At(t, p, stage), f))
  {
    MoveKeepsLedger(t, p, stage);
    forall i | i in t.ledger.entries && InUse(t.ledger.entries[i]) ensures t.ledger.entries[i].fence != f {
      assert EntryInv(t, i, t.ledger.entries[i]);
    }
    SpendKeepsLedger(At(t, p, stage), f);
  }

  lemma RollbackApprovalKeepsLedger(s: State, p: RequestID, code: Code, a: Approval)
    requires LedgerInv(s) && StageInv(s, p, ApprovalRollback(code, a))
    ensures LedgerInv(Spent(At(Apply(s, RollbackApproval(s.ledger, a)), p, Done), a.fence))
  {
    hide LedgerInv;
    if Fenced(s.ledger, a.id, Approving, a.fence) { DropKeepsLedger(s, a.id); }
    EndKeepsLedger(Apply(s, RollbackApproval(s.ledger, a)), p, Done, a.fence, Approving, code);
  }

  lemma CommitApprovalKeepsLedger(s: State, p: RequestID, code: Code, a: Approval, now: Time)
    requires LedgerInv(s) && StageInv(s, p, ApprovalCommitRead(code, a, now))
    ensures LedgerInv(Spent(At(Apply(s, CommitApproval(s.ledger, a, now)), p, Done), a.fence))
  {
    if Fenced(s.ledger, a.id, Approving, a.fence) {
      assert EntryInv(s, a.id, s.ledger.entries[a.id]);
      hide LedgerInv;
      DropKeepsLedger(s, a.id);
      if now < s.ledger.entries[a.id].expiresAt { PutKeepsLedger(s, a.id, Approved); }
    }
    hide LedgerInv;
    EndKeepsLedger(Apply(s, CommitApproval(s.ledger, a, now)), p, Done, a.fence, Approving, code);
  }

  lemma RollbackClaimKeepsLedger(s: State, p: RequestID, code: Code, c: Claim, stage: Stage)
    requires LedgerInv(s) && TokenFor(s, c.id, c.fence, code, Claiming)
    requires stage.Done? || (stage.ClaimDone? && !stage.committed)
    ensures LedgerInv(Spent(At(Apply(s, RollbackClaim(s.ledger, c, s.clock)), p, stage), c.fence))
  {
    if Fenced(s.ledger, c.id, Claiming, c.fence) {
      assert EntryInv(s, c.id, s.ledger.entries[c.id]);
      hide LedgerInv;
      DropKeepsLedger(s, c.id);
      PutKeepsLedger(s, c.id, Approved);
    }
    hide LedgerInv;
    EndKeepsLedger(Apply(s, RollbackClaim(s.ledger, c, s.clock)), p, stage, c.fence, Claiming, code);
  }

  lemma FailedCommitKeepsLedger(s: State, p: RequestID, code: Code, c: Claim, session: Nonce, now: Time)
    requires LedgerInv(s) && TokenFor(s, c.id, c.fence, code, Claiming) && CommitClaim(s.ledger, c, now).result.Err?
    ensures LedgerInv(Spent(At(Apply(s, CommitClaim(s.ledger, c, now)), p, Revoke(code, c, session, false)), c.fence))
  {
    hide LedgerInv;
    if Fenced(s.ledger, c.id, Claiming, c.fence) { DropKeepsLedger(s, c.id); }
    EndKeepsLedger(Apply(s, CommitClaim(s.ledger, c, now)), p, Revoke(code, c, session, false), c.fence, Claiming, code);
  }

  lemma RecordKeepsLedger(t: State, c: Committed)
    requires LedgerInv(t) && Settled(t, c.code) && c.code in t.audited
    requires forall x :: x in t.commits ==> x.code != c.code
    ensures LedgerInv(t.(commits := t.commits + [c]))
  {
    var u := t.(commits := t.commits + [c]);
    assert forall q, st :: StageInv(t, q, st) ==> StageInv(u, q, st);
    assert forall id, x :: EntryInv(t, id, x) ==> EntryInv(u, id, x);
    assert forall x :: Settled(t, x) ==> Settled(u, x);
    hide StageInv, EntryInv, Settled;
  }

  lemma CommitClaimKeepsLedger(s: State, p: RequestID, code: Code, c: Claim, session: Nonce, now: Time)
    requires LedgerInv(s) && TokenFor(s, c.id, c.fence, code, Claiming) && CommitClaim(s.ledger, c, now).result.Ok?
    ensures var t := Apply(s, CommitClaim(s.ledger, c, now)).(commits := s.commits + [Committed(p, code)]);
      LedgerInv(Spent(At(t, p, ClaimDone(code, session, true)), c.fence))
  {
    var e := s.ledger.entries[c.id];
    assert EntryInv(s, c.id, e);
    PutKeepsLedger(s, c.id, Claimed);
    var t := Apply(s, CommitClaim(s.ledger, c, now));
    var u := t.(commits := t.commits + [Committed(p, code)]);
    RecordKeepsLedger(t, Committed(p, code));
    hide LedgerInv;
    EndKeepsLedger(u, p, ClaimDone(code, session, true), c.fence, Claiming, code);
  }

  /** The sessions play no part in the ledger. */
  lemma SessionsApart(s: State, t: State)
    requires LedgerInv(s) && t == s.(sessions := t.sessions, issued := t.issued, retired := t.retired)
    ensures LedgerInv(t)
  {
    assert forall q, st :: StageInv(s, q, st) ==> StageInv(t, q, st);
    assert forall id, e :: EntryInv(s, id, e) ==> EntryInv(t, id, e);
    assert forall c :: Settled(s, c) ==> Settled(t, c);
    hide StageInv, EntryInv, Settled;
  }

  lemma ApprovalStepKeepsLedger(s: State, p: RequestID, stage: Stage, ok: bool, nonce: Nonce, ttl: Time)
    requires LedgerInv(s) && StageInv(s, p, stage) && |s.grants| < MAX_UINT64
    requires stage.IssueRead? || stage.ApproveAuthenticated? || stage.ApproveRead? || stage.ApprovalAudit? ||
      stage.ApprovalRollback? || stage.ApprovalCommit? || stage.ApprovalCommitRead?
    ensures LedgerInv(Proceed(s, p, stage, ok, nonce, ttl))
  {
    hide LedgerInv, Approve, CommitApproval, RollbackApproval, BeginClaim, CommitClaim, RollbackClaim, Live, Unexpired;
    match stage
    case IssueRead(now) =>
      SweepKeepsLedger(s, now);
      MoveKeepsLedger(s.(ledger := Sweep(s.ledger, now)), p, Done);
    case ApproveAuthenticated(code) => MoveKeepsLedger(s, p, ApproveRead(code, s.clock));
    case ApproveRead(code, now) => ApproveKeepsLedger(s, p, code, now);
    case ApprovalAudit(code, a) =>
      AuditKeepsLedger(s, code);
      MoveKeepsLedger(s, p, ApprovalRollback(code, a));
      MoveKeepsLedger(s.(audited := s.audited + {code}), p, ApprovalCommit(code, a));
    case ApprovalRollback(code, a) => RollbackApprovalKeepsLedger(s, p, code, a);
    case ApprovalCommit(code, a) =>
      GrantIsPast(s, a.fence);
      MoveKeepsLedger(s, p, ApprovalCommitRead(code, a, s.clock));
    case ApprovalCommitRead(code, a, now) => CommitApprovalKeepsLedger(s, p, code, a, now);
  }

  lemma BeginClaimStepKeepsLedger(s: State, p: RequestID, stage: Stage, ok: bool, nonce: Nonce, ttl: Time)
    requires LedgerInv(s) && StageInv(s, p, stage) && |s.grants| < MAX_UINT64
    requires stage.ClaimAuthenticated? || stage.ClaimRead? || stage.SessionDue? || stage.SessionRead?
    ensures LedgerInv(Proceed(s, p, stage, ok, nonce, ttl))
  {
    hide LedgerInv, Approve, CommitApproval, RollbackApproval, BeginClaim, CommitClaim, RollbackClaim, Live, Unexpired;
    match stage
    case ClaimAuthenticated(code) => MoveKeepsLedger(s, p, ClaimRead(code, s.clock));
    case ClaimRead(code, now) => BeginClaimKeepsLedger(s, p, code, now);
    case SessionDue(code, c) =>
      MoveKeepsLedger(s, p, SessionRead(code, c, s.clock));
      MoveKeepsLedger(s, p, ClaimRollback(code, c, None));
    case SessionRead(code, c, now) =>
      var live := Live(s.sessions, now);
      var t := s.(sessions := live[nonce := now + ttl], issued := s.issued + {nonce},
        retired := s.retired + (s.sessions.Keys - live.Keys));
      SessionsApart(s, t);
      MoveKeepsLedger(t, p, ClaimAudit(code, c, nonce));
  }

  lemma EndClaimStepKeepsLedger(s: State, p: RequestID, stage: Stage, ok: bool, nonce: Nonce, ttl: Time)
    requires LedgerInv(s) && StageInv(s, p, stage) && |s.grants| < MAX_UINT64
    requires stage.ClaimAudit? || stage.ClaimCommit? || stage.ClaimCommitRead? || stage.Revoke? || stage.ClaimRollback? ||
      stage.Done? || stage.ClaimDone?
    ensures LedgerInv(Proceed(s, p, stage, ok, nonce, ttl))
  {
    hide LedgerInv, Approve, CommitApproval, RollbackApproval, BeginClaim, CommitClaim, RollbackClaim, Live, Unexpired;
    match stage
    case ClaimAudit(code, c, n) =>
      MoveKeepsLedger(s, p, ClaimCommit(code, c, n));
      MoveKeepsLedger(s, p, Revoke(code, c, n, true));
    case ClaimCommit(code, c, n) => MoveKeepsLedger(s, p, ClaimCommitRead(code, c, n, s.clock));
    case ClaimCommitRead(code, c, n, now) =>
      if CommitClaim(s.ledger, c, now).result.Ok? {
        CommitClaimKeepsLedger(s, p, code, c, n, now);
      } else {
        FailedCommitKeepsLedger(s, p, code, c, n, now);
      }
    case Revoke(code, c, n, rollback) =>
      var t := s.(sessions := s.sessions - {n});
      SessionsApart(s, t);
      MoveKeepsLedger(t, p, if rollback then ClaimRollback(code, c, Some(n)) else ClaimDone(code, n, false));
    case ClaimRollback(code, c, revoked) =>
      RollbackClaimKeepsLedger(s, p, code, c, if revoked.Some? then ClaimDone(code, revoked.value, false) else Done);
    case Done =>
    case ClaimDone(_, _, _) =>
  }

  lemma ProceedKeepsLedger(s: State, p: RequestID, stage: Stage, ok: bool, nonce: Nonce, ttl: Time)
    requires LedgerInv(s) && StageInv(s, p, stage) && |s.grants| < MAX_UINT64
    ensures LedgerInv(Proceed(s, p, stage, ok, nonce, ttl))
  {
    hide LedgerInv, StageInv, Proceed;
    if stage.ClaimAuthenticated? || stage.ClaimRead? || stage.SessionDue? || stage.SessionRead? {
      BeginClaimStepKeepsLedger(s, p, stage, ok, nonce, ttl);
    } else if stage.ClaimAudit? || stage.ClaimCommit? || stage.ClaimCommitRead? || stage.Revoke? ||
      stage.ClaimRollback? || stage.Done? || stage.ClaimDone?
    {
      EndClaimStepKeepsLedger(s, p, stage, ok, nonce, ttl);
    } else {
      ApprovalStepKeepsLedger(s, p, stage, ok, nonce, ttl);
    }
  }

  lemma GrantIsPast(s: State, f: Fence)
    requires LedgerInv(s) && 0 < f <= |s.grants|
    ensures s.grants[f - 1].born <= s.clock
  {
  }

  lemma StepKeepsLedger(s: State, e: Event)
    requires LedgerInv(s) && Enabled(s, e) && |s.grants| < MAX_UINT64
    ensures LedgerInv(Step(s, e))
  {
    match e
    case Tick(to) => TickKeepsLedger(s, to);
    case ArriveIssue(p) => MoveKeepsLedger(s, p, IssueRead(s.clock));
    case ArriveApprove(p, code) => MoveKeepsLedger(s, p, ApproveAuthenticated(code));
    case ArriveClaim(p, code) => MoveKeepsLedger(s, p, ClaimAuthenticated(code));
    case Retire(n) => SessionsApart(s, Step(s, e));
    case Continue(p, ok, nonce, ttl) =>
      assert StageInv(s, p, s.requests[p]);
      hide LedgerInv;
      ProceedKeepsLedger(s, p, s.requests[p], ok, nonce, ttl);
  }

  // ----------------------------------------------------------- session invariant

  function SessionOf(stage: Stage): Option<Nonce> {
    match stage
    case ClaimAudit(_, _, n) => Some(n)
    case ClaimCommit(_, _, n) => Some(n)
    case ClaimCommitRead(_, _, n, _) => Some(n)
    case Revoke(_, _, n, _) => Some(n)
    case ClaimRollback(_, _, revoked) => revoked
    case ClaimDone(_, n, _) => Some(n)
    case _ => None
  }

  /** A session not yet revoked by its flow is live unless it ended by itself; a revoked
      one is not. */
  ghost predicate SessionStatus(s: State, stage: Stage) {
    SessionOf(stage).Some? ==>
      var n := SessionOf(stage).value;
      && n in s.issued
      && (if stage.ClaimRollback? || (stage.ClaimDone? && !stage.committed) then n !in s.sessions
          else n in s.sessions || n in s.retired)
  }

  ghost predicate SessionInv(s: State) {
    && s.sessions.Keys <= s.issued
    && (forall p :: p in s.requests ==> SessionStatus(s, s.requests[p]))
    && (forall p, q :: p in s.requests && q in s.requests && p != q ==> Apart(s.requests[p], s.requests[q]))
  }

  predicate Apart(a: Stage, b: Stage) {
    SessionOf(a).None? || SessionOf(a) != SessionOf(b)
  }

  /** What a step may do to sessions other than the one of the request that takes it. */
  ghost predicate SessionsKept(s: State, t: State, own: Option<Nonce>) {
    && s.issued <= t.issued && t.sessions.Keys <= t.issued
    && forall n :: n in s.issued && own != Some(n) ==>
         && (n in s.sessions || n in s.retired ==> n in t.sessions || n in t.retired)
         && (n !in s.sessions ==> n !in t.sessions)
  }

  lemma MoveKeepsSessions(s: State, t: State, p: RequestID, stage: Stage)
    requires SessionInv(s) && t.requests == s.requests[p := stage]
    requires SessionsKept(s, t, SessionOf(stage)) && SessionStatus(t, stage)
    requires SessionOf(stage).Some? ==>
      SessionOf(stage).value !in s.issued || (p in s.requests && SessionOf(s.requests[p]) == SessionOf(stage))
    ensures SessionInv(t)
  {
    forall q | q in s.requests && q != p ensures SessionStatus(t, s.requests[q]) && Apart(s.requests[q], stage) {
      assert SessionStatus(s, s.requests[q]);
      if p in s.requests { assert Apart(s.requests[q], s.requests[p]); }
    }
    hide SessionStatus, SessionsKept, SessionOf;
  }

  lemma ProceedKeepsSessions(s: State, p: RequestID, stage: Stage, ok: bool, nonce: Nonce, ttl: Time)
    requires SessionInv(s) && p in s.requests && s.requests[p] == stage && nonce !in s.issued
    ensures SessionInv(Proceed(s, p, stage, ok, nonce, ttl))
  {
    hide Approve, CommitApproval, RollbackApproval, BeginClaim, CommitClaim, RollbackClaim, Live, Unexpired;
    assert SessionStatus(s, stage) && s.sessions.Keys <= s.issued;
    hide SessionInv;
    var t := Proceed(s, p, stage, ok, nonce, ttl);
    if stage.SessionRead? {
      SessionIssueKeeps(s, t, p, stage, nonce, ttl);
    } else if stage.Revoke? {
      MoveKeepsSessions(s, t, p, t.requests[p]);
    } else {
      assert t.sessions == s.sessions && t.issued == s.issued && t.retired == s.retired;
      assert t.requests == s.requests[p := t.requests[p]];
      assert SessionOf(t.requests[p]).Some? ==> SessionOf(stage) == SessionOf(t.requests[p]);
      assert SessionStatus(t, t.requests[p]);
      hide Proceed, SessionOf, SessionStatus;
      MoveKeepsSessions(s, t, p, t.requests[p]);
    }
  }

  lemma SessionIssueKeeps(s: State, t: State, p: RequestID, stage: Stage, nonce: Nonce, ttl: Time)
    requires SessionInv(s) && p in s.requests && s.requests[p] == stage && nonce !in s.issued && stage.SessionRead?
    requires var live := Live(s.sessions, stage.now);
      t == At(s.(sessions := live[nonce := stage.now + ttl], issued := s.issued + {nonce},
        retired := s.retired + (s.sessions.Keys - live.Keys)), p, ClaimAudit(stage.code, stage.claim, nonce))
    ensures SessionInv(t)
  {
    MoveKeepsSessions(s, t, p, ClaimAudit(stage.code, stage.claim, nonce));
  }

  lemma StepKeepsSessions(s: State, e: Event)
    requires SessionInv(s) && Enabled(s, e)
    ensures SessionInv(Step(s, e))
  {
    if e.Continue? {
      hide SessionInv, Proceed;
      ProceedKeepsSessions(s, e.p, s.requests[e.p], e.ok, e.nonce, e.sessionTTL);
    } else if e.ArriveIssue? || e.ArriveApprove? || e.ArriveClaim? {
      var t := Step(s, e);
      hide Proceed;
      assert t.requests == s.requests[e.p := t.requests[e.p]];
      MoveKeepsSessions(s, t, e.p, t.requests[e.p]);
    } else if e.Tick? {
      assert forall stage :: SessionStatus(s, stage) ==> SessionStatus(Step(s, e), stage);
    }
  }

  // ------------------------------------------------------------------ main results

  lemma {:induction false} GrantsGrow(states: seq<State>, events: seq<Event>, i: nat, j: nat)
    requires IsRun(states, events) && i <= j < |states|
    ensures |states[i].grants| <= |states[j].grants|
    decreases j
  {
    if i < j {
      hide Approve, CommitApproval, RollbackApproval, BeginClaim, CommitClaim, RollbackClaim, Sweep, Live;
      GrantsGrow(states, events, i, j - 1);
      assert states[j] == Step(states[j - 1], events[j - 1]);
    }
  }

  /** While fences have not run through all of uint64, the ledger's invariant holds. */
  lemma {:induction false} RunKeepsLedger(states: seq<State>, events: seq<Event>, i: nat)
    requires IsRun(states, events) && i < |states| && |states[i].grants| < MAX_UINT64
    ensures LedgerInv(states[i])
  {
    hide Step, Enabled;
    if i > 0 {
      GrantsGrow(states, events, i - 1, i);
      RunKeepsLedger(states, events, i - 1);
      hide LedgerInv;
      StepKeepsLedger(states[i - 1], events[i - 1]);
    }
  }

  lemma {:induction false} RunKeepsSessions(states: seq<State>, events: seq<Event>, i: nat)
    requires IsRun(states, events) && i < |states|
    ensures SessionInv(states[i])
  {
    hide Step, Enabled;
    if i > 0 {
      RunKeepsSessions(states, events, i - 1);
      hide SessionInv;
      StepKeepsSessions(states[i - 1], events[i - 1]);
    }
  }

  /** A code is claimed at most once, ever: even after its entry expired and was deleted,
      and with every clock value read before the lock it is used under. */
  lemma ClaimedAtMostOnce(states: seq<State>, events: seq<Event>, i: nat, p: RequestID, q: RequestID)
    requires IsRun(states, events) && i < |states| && |states[i].grants| < MAX_UINT64
    requires p in states[i].requests && q in states[i].requests
    requires var a, b := states[i].requests[p], states[i].requests[q];
      a.ClaimDone? && b.ClaimDone? && a.committed && b.committed && a.code == b.code
    ensures p == q
    ensures states[i].requests[p].code in states[i].audited
  {
    RunKeepsLedger(states, events, i);
    var s := states[i];
    var code := s.requests[p].code;
    assert StageInv(s, p, s.requests[p]) && StageInv(s, q, s.requests[q]);
    var a :| 0 <= a < |s.commits| && s.commits[a] == Committed(p, code);
    var b :| 0 <= b < |s.commits| && s.commits[b] == Committed(q, code);
  }

  /** Once an operation has ended, however it ended, its fence matches no entry again. */
  lemma EndedFencesNeverMatch(states: seq<State>, events: seq<Event>, i: nat, j: nat, f: Fence, id: HandoffID, now: Time)
    requires IsRun(states, events) && i <= j < |states| && |states[j].grants| < MAX_UINT64
    requires f in states[i].spent
    ensures CommitApproval(states[j].ledger, Approval(id, f, true), now).result == Err(FenceMismatch)
    ensures RollbackApproval(states[j].ledger, Approval(id, f, true)).result == Err(FenceMismatch)
    ensures CommitClaim(states[j].ledger, Claim(id, f), now).result == Err(FenceMismatch)
    ensures RollbackClaim(states[j].ledger, Claim(id, f), now).result == Err(FenceMismatch)
  {
    RunKeepsLedger(states, events, j);
    SpentStays(states, events, i, j, f);
    if id in states[j].ledger.entries {
      assert EntryInv(states[j], id, states[j].ledger.entries[id]);
    }
  }

  lemma {:induction false} SpentStays(states: seq<State>, events: seq<Event>, i: nat, j: nat, f: Fence)
    requires IsRun(states, events) && i <= j < |states| && f in states[i].spent
    ensures f in states[j].spent
    decreases j
  {
    if i < j {
      hide Approve, CommitApproval, RollbackApproval, BeginClaim, CommitClaim, RollbackClaim, Sweep, Live;
      SpentStays(states, events, i, j - 1, f);
      assert states[j] == Step(states[j - 1], events[j - 1]);
    }
  }

  /** A finished claim request leaves its session live exactly when its claim committed,
      unless the session has since ended by itself. */
  lemma SessionLiveIffCommitted(states: seq<State>, events: seq<Event>, i: nat, p: RequestID)
    requires IsRun(states, events) && i < |states|
    requires p in states[i].requests && states[i].requests[p].ClaimDone?
    requires states[i].requests[p].session !in states[i].retired
    ensures states[i].requests[p].session in states[i].sessions <==> states[i].requests[p].committed
  {
    RunKeepsSessions(states, events, i);
    assert SessionStatus(states[i], states[i].requests[p]);
  }

  /** The event hands out session n to its request, with the clock value that was read. */
  predicate Issues(s: State, e: Event, n: Nonce) {
    e.Continue? && e.p in s.requests && s.requests[e.p].SessionRead? && e.nonce == n
  }

  lemma StepMovesSession(s: State, e: Event, n: Nonce)
    requires SessionInv(s) && Enabled(s, e)
    ensures n in s.issued && n in Step(s, e).sessions ==> n in s.sessions && Step(s, e).sessions[n] == s.sessions[n]
    ensures n in Step(s, e).issued && n !in s.issued ==>
      && Issues(s, e, n) && n in Step(s, e).sessions
      && Step(s, e).sessions[n] == s.requests[e.p].now + e.sessionTTL
      && e.p in Step(s, e).requests && SessionOf(Step(s, e).requests[e.p]) == Some(n)
  {
    hide Approve, CommitApproval, RollbackApproval, BeginClaim, CommitClaim, RollbackClaim, Unexpired, SessionStatus, Apart;
  }

  lemma StepKeepsSessionOf(s: State, e: Event, p: RequestID)
    requires Enabled(s, e) && p in s.requests && SessionOf(s.requests[p]).Some?
    ensures p in Step(s, e).requests && SessionOf(Step(s, e).requests[p]) == SessionOf(s.requests[p])
  {
    hide SessionOf, Proceed;
    if e.Continue? { ProceedKeepsSessionOf(s, e.p, s.requests[e.p], e.ok, e.nonce, e.sessionTTL); }
  }

  lemma ProceedKeepsSessionOf(s: State, p: RequestID, stage: Stage, ok: bool, nonce: Nonce, ttl: Time)
    requires p in s.requests && s.requests[p] == stage
    ensures var t := Proceed(s, p, stage, ok, nonce, ttl);
      && p in t.requests && t.requests == s.requests[p := t.requests[p]]
      && (SessionOf(stage).Some? ==> SessionOf(t.requests[p]) == SessionOf(stage))
  {
    hide Approve, CommitApproval, RollbackApproval, BeginClaim, CommitClaim, RollbackClaim, Unexpired, Live;
  }

  /** The event that issued a session, and its deadline while it is live. */
  lemma {:induction false} IssuedByRequest(states: seq<State>, events: seq<Event>, i: nat, n: Nonce) returns (k: nat)
    requires IsRun(states, events) && i < |states| && n in states[i].issued
    ensures k < i && Issues(states[k], events[k], n) && events[k].Continue?
    ensures n in states[i].sessions ==> states[i].sessions[n] == states[k].requests[events[k].p].now + events[k].sessionTTL
    ensures events[k].p in states[i].requests && SessionOf(states[i].requests[events[k].p]) == Some(n)
  {
    hide Step, Enabled, SessionInv, SessionOf;
    RunKeepsSessions(states, events, i - 1);
    assert Enabled(states[i - 1], events[i - 1]) && states[i] == Step(states[i - 1], events[i - 1]);
    StepMovesSession(states[i - 1], events[i - 1], n);
    if n in states[i - 1].issued {
      k := IssuedByRequest(states, events, i - 1, n);
      StepKeepsSessionOf(states[i - 1], events[i - 1], events[k].p);
    } else {
      k := i - 1;
    }
  }

  lemma StepReadsClock(s: State, e: Event, p: RequestID)
    requires Enabled(s, e) && p in Step(s, e).requests && Step(s, e).requests[p].SessionRead?
    ensures p in s.requests
    ensures s.requests[p] == Step(s, e).requests[p] || (e.Continue? && e.p == p && s.requests[p].SessionDue? && Step(s, e).requests[p].now == s.clock)
  {
    hide Proceed;
    if e.Continue? { ProceedReadsClock(s, e.p, s.requests[e.p], e.ok, e.nonce, e.sessionTTL); }
  }

  lemma ProceedReadsClock(s: State, p: RequestID, stage: Stage, ok: bool, nonce: Nonce, ttl: Time)
    requires p in s.requests && s.requests[p] == stage
    ensures var t := Proceed(s, p, stage, ok, nonce, ttl);
      && p in t.requests && t.requests == s.requests[p := t.requests[p]]
      && (t.requests[p].SessionRead? ==> stage.SessionDue? && t.requests[p].now == s.clock)
  {
    hide Approve, CommitApproval, RollbackApproval, BeginClaim, CommitClaim, RollbackClaim, Unexpired, Live;
  }

  lemma {:induction false} ReadingIsClock(states: seq<State>, events: seq<Event>, k: nat, p: RequestID) returns (d: nat)
    requires IsRun(states, events) && k < |states| && p in states[k].requests && states[k].requests[p].SessionRead?
    ensures d < k && events[d].Continue? && events[d].p == p && p in states[d].requests && states[d].requests[p].SessionDue?
    ensures states[k].requests[p].now == states[d].clock
  {
    hide Step, Enabled;
    assert k > 0;
    assert Enabled(states[k - 1], events[k - 1]) && states[k] == Step(states[k - 1], events[k - 1]);
    StepReadsClock(states[k - 1], events[k - 1], p);
    if states[k - 1].requests[p] == states[k].requests[p] {
      d := ReadingIsClock(states, events, k - 1, p);
    } else {
      d := k - 1;
    }
  }

  /** The session of a committed claim, unless it ended by itself, is live until its own
      deadline: the clock at event d, where its request read it, plus the lifetime it was
      issued with at event k. */
  lemma CommittedSessionKeepsItsDeadline(states: seq<State>, events: seq<Event>, i: nat, p: RequestID) returns (d: nat, k: nat)
    requires IsRun(states, events) && i < |states| && p in states[i].requests
    requires var stage := states[i].requests[p]; stage.ClaimDone? && stage.committed && stage.session !in states[i].retired
    ensures d < k < i
    ensures events[d].Continue? && events[d].p == p && events[k].Continue? && events[k].p == p
    ensures var n := states[i].requests[p].session;
      && events[k].nonce == n && n in states[i].sessions
      && states[i].sessions[n] == states[d].clock + events[k].sessionTTL
  {
    var n := states[i].requests[p].session;
    RunKeepsSessions(states, events, i);
    assert SessionStatus(states[i], states[i].requests[p]);
    k := IssuedByRequest(states, events, i, n);
    hide IsRun;
    d := ReadingIsClock(states, events, k, p);
  }

  // -------------------------------------------------------------- reservations

  /** The entry a request reserved, from the section that reserved it to the one that ends it. */
  function Reserved(stage: Stage): Option<(HandoffID, Entry)> {
    match stage
    case ApprovalAudit(code, a) => ReservedAs(code, Approving, a.fence)
    case ApprovalRollback(code, a) => ReservedAs(code, Approving, a.fence)
    case ApprovalCommit(code, a) => ReservedAs(code, Approving, a.fence)
    case ApprovalCommitRead(code, a, _) => ReservedAs(code, Approving, a.fence)
    case SessionDue(code, c) => ReservedAs(code, Claiming, c.fence)
    case SessionRead(code, c, _) => ReservedAs(code, Claiming, c.fence)
    case ClaimAudit(code, c, _) => ReservedAs(code, Claiming, c.fence)
    case ClaimCommit(code, c, _) => ReservedAs(code, Claiming, c.fence)
    case ClaimCommitRead(code, c, _, _) => ReservedAs(code, Claiming, c.fence)
    case Revoke(code, c, _, thenRollback) => if thenRollback then ReservedAs(code, Claiming, c.fence) else None
    case ClaimRollback(code, c, _) => ReservedAs(code, Claiming, c.fence)
    case _ => None
  }

  function ReservedAs(code: Code, phase: Phase, fence: Fence): Option<(HandoffID, Entry)> {
    Some((code.id, Entry(code.digest, code.expiresAt, phase, fence)))
  }

  /** A reserved entry is in the ledger, unchanged, until its code has expired. */
  ghost predicate Holding(s: State, stage: Stage) {
    Reserved(stage).Some? ==>
      var (id, e) := Reserved(stage).value;
      && 0 < e.fence <= s.ledger.fence
      && (s.clock < e.expiresAt ==> id in s.ledger.entries && s.ledger.entries[id] == e)
  }

  ghost predicate ReservationsApart(a: Stage, b: Stage) {
    Reserved(a).Some? && Reserved(b).Some? ==> Reserved(a).value.1.fence != Reserved(b).value.1.fence
  }

  ghost predicate HoldersInv(s: State) {
    && (forall p :: p in s.requests ==> Holding(s, s.requests[p]))
    && (forall p, q :: p in s.requests && q in s.requests && p != q ==> ReservationsApart(s.requests[p], s.requests[q]))
  }

  /** What a section leaves of the reservations of others; `own` is the fence it may end. */
  ghost predicate ReservationsKept(s: State, t: State, own: Fence) {
    && t.clock == s.clock && s.ledger.fence <= t.ledger.fence
    && forall id :: id in s.ledger.entries ==>
         var e := s.ledger.entries[id];
         InUse(e) && e.fence != own && s.clock < e.expiresAt ==> id in t.ledger.entries && t.ledger.entries[id] == e
  }

  lemma SectionKeepsHolders(s: State, t: State, p: RequestID, stage: Stage, own: Fence)
    requires HoldersInv(s) && ReservationsKept(s, t, own) && t.requests == s.requests[p := stage]
    requires Holding(t, stage)
    requires forall q :: q in s.requests && q != p ==>
      ReservationsApart(s.requests[q], stage) &&
      (Reserved(s.requests[q]).Some? ==> Reserved(s.requests[q]).value.1.fence != own)
    ensures HoldersInv(t)
  {
    forall q | q in s.requests && q != p ensures Holding(t, t.requests[q]) {
      assert Holding(s, s.requests[q]);
      assert Reserved(s.requests[q]).Some? ==> InUse(Reserved(s.requests[q]).value.1);
    }
    hide Holding, Reserved;
  }

  function FenceOf(stage: Stage): Fence {
    if Reserved(stage).Some? then Reserved(stage).value.1.fence else 0
  }

  /** A section reserves nothing new, or under a new fence. */
  ghost predicate ReservesAnew(s: State, t: State, p: RequestID, own: Fence) {
    && p in t.requests && t.requests == s.requests[p := t.requests[p]]
    && ReservationsKept(s, t, own) && Holding(t, t.requests[p])
    && (Reserved(t.requests[p]).Some? && FenceOf(t.requests[p]) != own ==> FenceOf(t.requests[p]) > s.ledger.fence)
  }

  lemma ApprovalReserves(s: State, p: RequestID, stage: Stage, ok: bool, nonce: Nonce, ttl: Time)
    requires Holding(s, stage) && StageInv(s, p, stage) && s.ledger.fence < MAX_UINT64
    requires stage.IssueRead? || stage.ApproveAuthenticated? || stage.ApproveRead? || stage.ApprovalAudit? ||
      stage.ApprovalRollback? || stage.ApprovalCommit? || stage.ApprovalCommitRead?
    ensures ReservesAnew(s, Proceed(s, p, stage, ok, nonce, ttl), p, FenceOf(stage))
  {
    hide Live, BeginClaim, CommitClaim, RollbackClaim;
  }

  lemma ClaimReserves(s: State, p: RequestID, stage: Stage, ok: bool, nonce: Nonce, ttl: Time)
    requires Holding(s, stage) && StageInv(s, p, stage) && s.ledger.fence < MAX_UINT64
    requires stage.ClaimAuthenticated? || stage.ClaimRead? || stage.SessionDue? || stage.SessionRead? || stage.ClaimAudit?
    ensures ReservesAnew(s, Proceed(s, p, stage, ok, nonce, ttl), p, FenceOf(stage))
  {
    hide Live, Approve, CommitApproval, RollbackApproval, CommitClaim, RollbackClaim;
  }

  lemma ClaimEndReserves(s: State, p: RequestID, stage: Stage, ok: bool, nonce: Nonce, ttl: Time)
    requires Holding(s, stage) && StageInv(s, p, stage) && s.ledger.fence < MAX_UINT64
    requires stage.ClaimCommit? || stage.ClaimCommitRead? || stage.Revoke? || stage.ClaimRollback?
    ensures ReservesAnew(s, Proceed(s, p, stage, ok, nonce, ttl), p, FenceOf(stage))
  {
    hide Live, Approve, CommitApproval, RollbackApproval, BeginClaim;
  }

  lemma ProceedKeepsHolders(s: State, p: RequestID, stage: Stage, ok: bool, nonce: Nonce, ttl: Time)
    requires HoldersInv(s) && p in s.requests && s.requests[p] == stage
    requires StageInv(s, p, stage) && s.ledger.fence < MAX_UINT64
    ensures HoldersInv(Proceed(s, p, stage, ok, nonce, ttl))
  {
    assert forall q :: q in s.requests ==> Holding(s, s.requests[q]);
    if stage != Done && !stage.ClaimDone? {
      var t := Proceed(s, p, stage, ok, nonce, ttl);
      if stage.IssueRead? || stage.ApproveAuthenticated? || stage.ApproveRead? || stage.ApprovalAudit? ||
        stage.ApprovalRollback? || stage.ApprovalCommit? || stage.ApprovalCommitRead?
      {
        ApprovalReserves(s, p, stage, ok, nonce, ttl);
      } else if stage.ClaimCommit? || stage.ClaimCommitRead? || stage.Revoke? || stage.ClaimRollback? {
        ClaimEndReserves(s, p, stage, ok, nonce, ttl);
      } else {
        ClaimReserves(s, p, stage, ok, nonce, ttl);
      }
      hide Proceed, StageInv, ReservationsKept, Reserved;
      SectionKeepsHolders(s, t, p, t.requests[p], FenceOf(stage));
    }
  }

  lemma StepKeepsHolders(s: State, e: Event)
    requires LedgerInv(s) && HoldersInv(s) && Enabled(s, e) && |s.grants| < MAX_UINT64
    ensures HoldersInv(Step(s, e))
  {
    if e.Continue? {
      hide Proceed, HoldersInv;
      ProceedKeepsHolders(s, e.p, s.requests[e.p], e.ok, e.nonce, e.sessionTTL);
    }
  }

  lemma {:induction false} RunKeepsHolders(states: seq<State>, events: seq<Event>, i: nat)
    requires IsRun(states, events) && i < |states| && |states[i].grants| < MAX_UINT64
    ensures HoldersInv(states[i])
  {
    hide Step, Enabled, LedgerInv;
    if i > 0 {
      GrantsGrow(states, events, i - 1, i);
      RunKeepsLedger(states, events, i - 1);
      RunKeepsHolders(states, events, i - 1);
      hide HoldersInv;
      StepKeepsHolders(states[i - 1], events[i - 1]);
    }
  }

  /** Over every run, whatever other requests do: until the code expires its reservation
      ends as its holder wants, and a commit whose clock value is too late never succeeds. */
  lemma ReservationHoldsUntilExpiry(states: seq<State>, events: seq<Event>, i: nat)
    requires IsRun(states, events) && i < |events| && |states[i].grants| < MAX_UINT64 && events[i].Continue?
    ensures var s, t, p := states[i], states[i + 1], events[i].p;
      match s.requests[p]
      case ApprovalCommitRead(code, _, now) =>
        && (s.clock < code.expiresAt ==> Stands(t.ledger, code, Approved))
        && (now >= code.expiresAt ==> t.ledger == s.ledger || t.ledger == Drop(s.ledger, code.id))
      case ApprovalRollback(code, _) => s.clock < code.expiresAt ==> t.ledger == Drop(s.ledger, code.id)
      case ClaimCommitRead(code, _, n, now) =>
        && (s.clock < code.expiresAt ==> Stands(t.ledger, code, Claimed) && t.requests[p] == ClaimDone(code, n, true))
        && (now >= code.expiresAt ==> t.requests[p].Revoke? && (t.ledger == s.ledger || t.ledger == Drop(s.ledger, code.id)))
      case ClaimRollback(code, _, _) =>
        if s.clock < code.expiresAt then Stands(t.ledger, code, Approved)
        else t.ledger == s.ledger || t.ledger == Drop(s.ledger, code.id)
      case _ => true
  {
    var s, p := states[i], events[i].p;
    RunKeepsLedger(states, events, i);
    RunKeepsHolders(states, events, i);
    assert Enabled(s, events[i]) && states[i + 1] == Step(s, events[i]);
    assert StageInv(s, p, s.requests[p]) && Holding(s, s.requests[p]);
    assert forall id :: id in s.ledger.entries ==> EntryInv(s, id, s.ledger.entries[id]);
    hide IsRun, LedgerInv, HoldersInv, Approve, BeginClaim, Live, Unexpired, Enabled;
  }

  predicate Stands(l: Ledger, code: Code, phase: Phase) {
    code.id in l.entries && SameCode(l.entries[code.id], code) && l.entries[code.id].phase == phase
  }

  /** The entry that decides about a code, unless it has expired. */
  function Decides(l: Ledger, code: Code, now: Time): Option<Entry> {
    if code.id in l.entries && now < l.entries[code.id].expiresAt then Some(l.entries[code.id]) else None
  }

  /** Whatever is answered, entries of other codes are kept exactly until they expire. */
  predicate SweptBeside(before: Ledger, after: Ledger, id: HandoffID, now: Time) {
    && (forall i :: i in after.entries && i != id ==>
          i in before.entries && now < before.entries[i].expiresAt && after.entries[i] == before.entries[i])
    && (forall i :: i in before.entries && i != id && now < before.entries[i].expiresAt ==> i in after.entries)
  }

  /** A new code waits for its audit, an approved one needs none; the phase alone decides a
      claim, and another code under the same identifier is told apart. */
  lemma RequestAnswers(l: Ledger, code: Code, now: Time)
    ensures var e, a, c := Decides(l, code, now), Approve(l, code, now), BeginClaim(l, code, now);
      && SweptBeside(l, a.ledger, code.id, now) && SweptBeside(l, c.ledger, code.id, now)
      && (a.result.Ok? <==> e.None? || (SameCode(e.value, code) && e.value.phase != Approving))
      && (a.result == Err(PendingHandoff) <==> e.Some? && SameCode(e.value, code) && e.value.phase == Approving)
      && (c.result.Ok? <==> e.Some? && SameCode(e.value, code) && e.value.phase == Approved)
      && (c.result == Err(PendingHandoff) <==> e.None? || (SameCode(e.value, code) && e.value.phase == Approving))
      && (c.result == Err(ClaimInProgress) <==> e.Some? && SameCode(e.value, code) && e.value.phase == Claiming)
      && (c.result == Err(AlreadyClaimed) <==> e.Some? && SameCode(e.value, code) && e.value.phase == Claimed)
      && (a.result == Err(InvalidHandoff) <==> c.result == Err(InvalidHandoff))
      && (a.result.Ok? ==> (a.result.value.needsAudit <==> e.None?))
      && (e.Some? && c.result.Err? ==> c.ledger == a.ledger && a.ledger.fence == l.fence && Decides(a.ledger, code, now) == e)
      && (e.None? ==> c.ledger.fence == l.fence && code.id !in c.ledger.entries)
  {
    var e, s := Decides(l, code, now), Sweep(l, now);
    assert code.id in s.entries <==> e.Some?;
  }

  /** A new code can be approved, claimed, given back and claimed again, and is then
      refused to everyone. */
  lemma HandoffSucceeds(l: Ledger, code: Code, now: Time)
    requires code.id !in l.entries && now < code.expiresAt
    ensures var a := Approve(l, code, now);
      var b := CommitApproval(a.ledger, a.result.value, now);
      var c := BeginClaim(b.ledger, code, now);
      var d := RollbackClaim(c.ledger, c.result.value, now);
      var e := BeginClaim(d.ledger, code, now);
      var f := CommitClaim(e.ledger, e.result.value, now);
      && a.result.Ok? && b.result.Ok? && c.result.Ok? && d.result.Ok? && e.result.Ok? && f.result.Ok?
      && CommitClaim(e.ledger, c.result.value, now).result == Err(FenceMismatch)
      && BeginClaim(f.ledger, code, now).result == Err(AlreadyClaimed)
  {
  }
}
