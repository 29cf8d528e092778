/** The rate window for unauthenticated enrollment requests
    (internal/app/enrollment_guard.go). */
module EnrollmentGuards {
  import opened Common

  /** Nanoseconds. The zero time, which the guard refuses, is not modelled. */
  type Time = int

  type Source = string

  const WINDOW: int := 60_000_000_000
  const REQUESTS_PER_WINDOW := 60
  const REQUESTS_PER_SOURCE := 12
  const TRACKED_SOURCES := 256

  datatype AuditKind = RejectedAudit | UnavailableAudit

  datatype Guard = Guard(windowStartedAt: Option<Time>, total: nat, bySource: map<Source, nat>, audited: set<AuditKind>)

  // ------------------------------------------------------------------ sections

  predicate StartsWindow(g: Guard, now: Time) {
    g.windowStartedAt.None? || now < g.windowStartedAt.value || now >= g.windowStartedAt.value + WINDOW
  }

  function RollWindow(g: Guard, now: Time): Guard {
    if StartsWindow(g, now) then Guard(Some(now), 0, map[], {}) else g
  }

  function Admit(g: Guard, s: Source, now: Time): (Guard, bool) {
    var r := RollWindow(g, now);
    if r.total >= REQUESTS_PER_WINDOW || GetOr(r.bySource, s, 0) >= REQUESTS_PER_SOURCE ||
      (s !in r.bySource && |r.bySource| >= TRACKED_SOURCES)
    then (r, false)
    else (r.(total := r.total + 1, bySource := r.bySource[s := GetOr(r.bySource, s, 0) + 1]), true)
  }

  function ClaimAudit(g: Guard, kind: AuditKind, now: Time): (Guard, bool) {
    var r := RollWindow(g, now);
    if kind in r.audited then (r, false) else (r.(audited := r.audited + {kind}), true)
  }

  class RequestGuard {
    var windowStartedAt: Option<Time>
    var total: nat
    var bySource: map<Source, nat>
    var audited: set<AuditKind>

    ghost function View(): Guard
      reads this
    {
      Guard(windowStartedAt, total, bySource, audited)
    }

    constructor ()
      ensures View() == EMPTY_GUARD
    {
      windowStartedAt, total, bySource, audited := None, 0, map[], {};
    }

    method Roll(now: Time)
      modifies this
      ensures View() == RollWindow(old(View()), now)
    {
      if windowStartedAt.None? || now < windowStartedAt.value || now >= windowStartedAt.value + WINDOW {
        windowStartedAt := Some(now);
        total := 0;
        bySource := map[];
        audited := {};
      }
    }

    method AdmitRequest(s: Source, now: Time) returns (ok: bool)
      modifies this
      ensures (View(), ok) == Admit(old(View()), s, now)
    {
      Roll(now);
      if total >= REQUESTS_PER_WINDOW { return false; }
      if s in bySource && bySource[s] >= REQUESTS_PER_SOURCE { return false; }
      if s !in bySource && |bySource| >= TRACKED_SOURCES { return false; }
      total := total + 1;
      bySource := bySource[s := GetOr(bySource, s, 0) + 1];
      ok := true;
    }

    method ClaimAuditMarker(kind: AuditKind, now: Time) returns (ok: bool)
      modifies this
      ensures (View(), ok) == ClaimAudit(old(View()), kind, now)
    {
      Roll(now);
      if kind in audited { return false; }
      audited := audited + {kind};
      ok := true;
    }
  }

  const EMPTY_GUARD := Guard(None, 0, map[], {})

  // --------------------------------------------------------------- counted sources

  ghost function Sum(m: map<Source, nat>): nat
    decreases |m|
  {
    if m == map[] then 0
    else
      var k :| k in m;
      m[k] + Sum(m - {k})
  }

  lemma {:induction false} SumWithout(m: map<Source, nat>, k: Source)
    requires k in m
    ensures Sum(m) == m[k] + Sum(m - {k})
    decreases |m|
  {
    var c :| c in m && Sum(m) == m[c] + Sum(m - {c});
    if c != k {
      SumWithout(m - {c}, k);
      SumWithout(m - {k}, c);
      assert m - {c} - {k} == m - {k} - {c};
    }
  }

  lemma SumOfOneMore(m: map<Source, nat>, s: Source)
    ensures Sum(m[s := GetOr(m, s, 0) + 1]) == Sum(m) + 1
  {
    var n := m[s := GetOr(m, s, 0) + 1];
    SumWithout(n, s);
    assert n - {s} == m - {s};
    if s in m { SumWithout(m, s); } else { assert m - {s} == m; }
  }

  lemma {:induction false} NoMoreSourcesThanRequests(m: map<Source, nat>)
    requires forall s :: s in m ==> m[s] > 0
    ensures |m| <= Sum(m)
    decreases |m|
  {
    if m != map[] {
      var k :| k in m && Sum(m) == m[k] + Sum(m - {k});
      NoMoreSourcesThanRequests(m - {k});
      assert |m| == |m - {k}| + 1 by {
        assert m.Keys == (m - {k}).Keys + {k};
        assert |m.Keys| == |m| && |(m - {k}).Keys| == |m - {k}|;
      }
    }
  }

  // ------------------------------------------------------------------------ runs

  /** One granted request: when, to whom, and in which window. */
  datatype Grant<K> = Grant(time: Time, key: K, window: nat)

  /** `starts` are the windows' starting times so far. */
  datatype State = State(guard: Guard, latest: Time, starts: seq<Time>, admitted: seq<Grant<Source>>, audits: seq<Grant<AuditKind>>)

  datatype Event = AdmitEvent(s: Source, now: Time) | AuditEvent(kind: AuditKind, now: Time)

  function Step(x: State, e: Event): State {
    var starts := if StartsWindow(x.guard, e.now) then x.starts + [e.now] else x.starts;
    match e
    case AdmitEvent(s, now) =>
      var (g, ok) := Admit(x.guard, s, now);
      x.(guard := g, latest := now, starts := starts,
         admitted := if ok && starts != [] then x.admitted + [Grant(now, s, |starts| - 1)] else x.admitted)
    case AuditEvent(kind, now) =>
      var (g, ok) := ClaimAudit(x.guard, kind, now);
      x.(guard := g, latest := now, starts := starts,
         audits := if ok && starts != [] then x.audits + [Grant(now, kind, |starts| - 1)] else x.audits)
  }

  /** The clock values do not decrease in the order the lock is taken. */
  ghost predicate IsRun(states: seq<State>, events: seq<Event>) {
    && |states| == |events| + 1
    && states[0] == State(EMPTY_GUARD, states[0].latest, [], [], [])
    && forall i :: 0 <= i < |events| ==> events[i].now >= states[i].latest && states[i + 1] == Step(states[i], events[i])
  }

  // -------------------------------------------------------------------- counting

  predicate Counts<K(==)>(g: Grant<K>, key: Option<K>) {
    key.None? || g.key == key.value
  }

  function CountInWindow<K(==)>(log: seq<Grant<K>>, w: nat, key: Option<K>): nat {
    if log == [] then 0
    else
      var n := |log| - 1;
      CountInWindow(log[..n], w, key) + if log[n].window == w && Counts(log[n], key) then 1 else 0
  }

  /** How many were granted in the half-open minute that starts at `from`. */
  function CountInMinute<K(==)>(log: seq<Grant<K>>, from: Time, key: Option<K>): nat {
    if log == [] then 0
    else
      var n := |log| - 1;
      CountInMinute(log[..n], from, key) + if from <= log[n].time < from + WINDOW && Counts(log[n], key) then 1 else 0
  }

  ghost predicate Spaced(starts: seq<Time>) {
    forall i, j :: 0 <= i < j < |starts| ==> starts[i] + WINDOW <= starts[j]
  }

  ghost predicate InWindows<K>(log: seq<Grant<K>>, starts: seq<Time>) {
    forall i :: 0 <= i < |log| ==>
      log[i].window < |starts| && starts[log[i].window] <= log[i].time < starts[log[i].window] + WINDOW
  }

  lemma {:induction false} TwoWindowsCoverMinute<K>(log: seq<Grant<K>>, from: Time, w: nat, key: Option<K>)
    requires forall i :: 0 <= i < |log| && from <= log[i].time < from + WINDOW ==> log[i].window == w || log[i].window == w + 1
    ensures CountInMinute(log, from, key) <= CountInWindow(log, w, key) + CountInWindow(log, w + 1, key)
    decreases |log|
  {
    if log != [] { TwoWindowsCoverMinute(log[..|log| - 1], from, w, key); }
  }

  /** A half-open minute meets at most two windows. */
  lemma MinuteMeetsTwoWindows<K>(log: seq<Grant<K>>, starts: seq<Time>, from: Time) returns (w: nat)
    requires Spaced(starts) && InWindows(log, starts)
    ensures forall i :: 0 <= i < |log| && from <= log[i].time < from + WINDOW ==> log[i].window == w || log[i].window == w + 1
  {
    w := 0;
    if a :| 0 <= a < |log| && from <= log[a].time < from + WINDOW {
      w := log[a].window;
      if b :| 0 <= b < |log| && from <= log[b].time < from + WINDOW && log[b].window < w { w := log[b].window; }
      forall i | 0 <= i < |log| && from <= log[i].time < from + WINDOW
        ensures log[i].window == w || log[i].window == w + 1
      {
        WindowsAreNear(log, starts, from, i, a);
        if b :| 0 <= b < |log| && from <= log[b].time < from + WINDOW && log[b].window == w { WindowsAreNear(log, starts, from, i, b); }
      }
    }
  }

  lemma StartsApart(starts: seq<Time>)
    requires Spaced(starts)
    ensures forall i, j :: 0 <= i && i + 1 < j < |starts| ==> starts[i] + 2 * WINDOW <= starts[j]
  {
    forall i, j | 0 <= i && i + 1 < j < |starts| ensures starts[i] + 2 * WINDOW <= starts[j] {
      assert starts[i] + WINDOW <= starts[i + 1];
    }
  }

  lemma WindowsAreNear<K>(log: seq<Grant<K>>, starts: seq<Time>, from: Time, i: nat, j: nat)
    requires Spaced(starts) && InWindows(log, starts) && i < |log| && j < |log|
    requires from <= log[i].time < from + WINDOW && from <= log[j].time < from + WINDOW
    ensures log[i].window <= log[j].window + 1 && log[j].window <= log[i].window + 1
  {
    StartsApart(starts);
  }

  /** What no window exceeds, no minute exceeds twice. */
  lemma MinuteBound<K>(log: seq<Grant<K>>, starts: seq<Time>, from: Time, key: Option<K>, limit: nat)
    requires Spaced(starts) && InWindows(log, starts)
    requires forall w: nat :: CountInWindow(log, w, key) <= limit
    ensures CountInMinute(log, from, key) <= 2 * limit
  {
    var w := MinuteMeetsTwoWindows(log, starts, from);
    TwoWindowsCoverMinute(log, from, w, key);
  }

  lemma CountOfAppend<K>(log: seq<Grant<K>>, g: Grant<K>, w: nat, key: Option<K>)
    ensures CountInWindow(log + [g], w, key) == CountInWindow(log, w, key) + if g.window == w && Counts(g, key) then 1 else 0
  {
    assert (log + [g])[..|log|] == log;
  }

  lemma {:induction false} NothingInLaterWindows<K>(log: seq<Grant<K>>, starts: seq<Time>, w: nat, key: Option<K>)
    requires InWindows(log, starts) && w >= |starts|
    ensures CountInWindow(log, w, key) == 0
    decreases |log|
  {
    if log != [] { NothingInLaterWindows(log[..|log| - 1], starts, w, key); }
  }

  // ----------------------------------------------------------------- invariant

  ghost predicate TimeInv(x: State) {
    && Spaced(x.starts)
    && (x.starts == [] ==> x.guard == EMPTY_GUARD && x.admitted == [] && x.audits == [])
    && (x.starts != [] ==>
          x.guard.windowStartedAt == Some(x.starts[|x.starts| - 1]) && x.starts[|x.starts| - 1] <= x.latest)
  }

  /** The request counters are the counts of the present window, and no window exceeds
      the limits. */
  ghost predicate RequestInv(x: State) {
    && InWindows(x.admitted, x.starts)
    && (x.starts != [] ==>
          && x.guard.total == CountInWindow(x.admitted, |x.starts| - 1, None)
          && (forall s :: GetOr(x.guard.bySource, s, 0) == CountInWindow(x.admitted, |x.starts| - 1, Some(s))))
    && (forall w: nat :: CountInWindow(x.admitted, w, None) <= REQUESTS_PER_WINDOW)
    && (forall w: nat, s :: CountInWindow(x.admitted, w, Some(s)) <= REQUESTS_PER_SOURCE)
  }

  ghost predicate TableInv(x: State) {
    && Sum(x.guard.bySource) == x.guard.total <= REQUESTS_PER_WINDOW
    && (forall s :: s in x.guard.bySource ==> x.guard.bySource[s] > 0)
  }

  ghost predicate AuditInv(x: State) {
    && InWindows(x.audits, x.starts)
    && (x.starts != [] ==>
          forall k :: k in x.guard.audited <==> CountInWindow(x.audits, |x.starts| - 1, Some(k)) > 0)
    && (forall w: nat, k :: CountInWindow(x.audits, w, Some(k)) <= 1)
  }

  ghost predicate Inv(x: State) {
    TimeInv(x) && RequestInv(x) && TableInv(x) && AuditInv(x)
  }

  /** Rolling the window by itself. */
  function Rolled(x: State, now: Time): State {
    x.(guard := RollWindow(x.guard, now), latest := now,
       starts := if StartsWindow(x.guard, now) then x.starts + [now] else x.starts)
  }

  predicate InPresentWindow(x: State, now: Time) {
    x.starts != [] && x.starts[|x.starts| - 1] <= now < x.starts[|x.starts| - 1] + WINDOW
  }

  lemma RollKeepsTime(x: State, now: Time)
    requires TimeInv(x) && now >= x.latest
    ensures TimeInv(Rolled(x, now)) && InPresentWindow(Rolled(x, now), now)
  {
  }

  lemma RollKeepsRequests(x: State, now: Time)
    requires TimeInv(x) && RequestInv(x) && TableInv(x)
    ensures RequestInv(Rolled(x, now)) && TableInv(Rolled(x, now))
  {
    if StartsWindow(x.guard, now) {
      var w := |x.starts|;
      NothingInLaterWindows(x.admitted, x.starts, w, None);
      forall s ensures CountInWindow(x.admitted, w, Some(s)) == 0 { NothingInLaterWindows(x.admitted, x.starts, w, Some(s)); }
      hide CountInWindow;
    }
  }

  lemma RollKeepsAudits(x: State, now: Time)
    requires TimeInv(x) && AuditInv(x)
    ensures AuditInv(Rolled(x, now))
  {
    if StartsWindow(x.guard, now) {
      var w := |x.starts|;
      forall k ensures CountInWindow(x.audits, w, Some(k)) == 0 { NothingInLaterWindows(x.audits, x.starts, w, Some(k)); }
      hide CountInWindow;
    }
  }

  lemma AppendInWindows<K>(log: seq<Grant<K>>, starts: seq<Time>, g: Grant<K>)
    requires InWindows(log, starts) && g.window < |starts| && starts[g.window] <= g.time < starts[g.window] + WINDOW
    ensures InWindows(log + [g], starts)
  {
  }

  function Admitted(x: State, s: Source, now: Time): State
    requires x.starts != []
  {
    x.(guard := x.guard.(total := x.guard.total + 1, bySource := x.guard.bySource[s := GetOr(x.guard.bySource, s, 0) + 1]),
       admitted := x.admitted + [Grant(now, s, |x.starts| - 1)])
  }

  lemma AdmitKeepsTable(x: State, s: Source, now: Time)
    requires TableInv(x) && x.starts != [] && x.guard.total < REQUESTS_PER_WINDOW
    ensures TableInv(Admitted(x, s, now))
  {
    SumOfOneMore(x.guard.bySource, s);
    hide Sum;
  }

  /** How one more request of a source changes the counts. */
  lemma RequestCounts(x: State, s: Source, g: Grant<Source>, v: nat, o: Source)
    requires RequestInv(x) && x.starts != [] && g.window == |x.starts| - 1 && g.key == s
    requires x.guard.total < REQUESTS_PER_WINDOW && GetOr(x.guard.bySource, s, 0) < REQUESTS_PER_SOURCE
    ensures CountInWindow(x.admitted + [g], v, None) <= REQUESTS_PER_WINDOW
    ensures CountInWindow(x.admitted + [g], v, Some(o)) <= REQUESTS_PER_SOURCE
    ensures v == |x.starts| - 1 ==>
      && CountInWindow(x.admitted + [g], v, None) == x.guard.total + 1
      && CountInWindow(x.admitted + [g], v, Some(o)) ==
           GetOr(x.guard.bySource[s := GetOr(x.guard.bySource, s, 0) + 1], o, 0)
  {
    CountOfAppend(x.admitted, g, v, None);
    CountOfAppend(x.admitted, g, v, Some(o));
    assert CountInWindow(x.admitted, v, None) <= REQUESTS_PER_WINDOW;
    assert CountInWindow(x.admitted, v, Some(o)) <= REQUESTS_PER_SOURCE;
    assert v == |x.starts| - 1 ==> GetOr(x.guard.bySource, o, 0) == CountInWindow(x.admitted, v, Some(o));
    assert v == |x.starts| - 1 ==> x.guard.total == CountInWindow(x.admitted, v, None);
    hide CountInWindow, RequestInv;
  }

  lemma AdmitKeepsRequests(x: State, s: Source, now: Time)
    requires RequestInv(x) && InPresentWindow(x, now)
    requires x.guard.total < REQUESTS_PER_WINDOW && GetOr(x.guard.bySource, s, 0) < REQUESTS_PER_SOURCE
    ensures RequestInv(Admitted(x, s, now))
  {
    hide CountInWindow, InWindows, GetOr;
    var w := |x.starts| - 1;
    var g := Grant(now, s, w);
    AppendInWindows(x.admitted, x.starts, g);
    forall v: nat ensures CountInWindow(x.admitted + [g], v, None) <= REQUESTS_PER_WINDOW {
      RequestCounts(x, s, g, v, s);
    }
    forall v: nat, o ensures CountInWindow(x.admitted + [g], v, Some(o)) <= REQUESTS_PER_SOURCE {
      RequestCounts(x, s, g, v, o);
    }
    forall o ensures CountInWindow(x.admitted + [g], w, Some(o)) ==
      GetOr(x.guard.bySource[s := GetOr(x.guard.bySource, s, 0) + 1], o, 0)
    {
      RequestCounts(x, s, g, w, o);
    }
    RequestCounts(x, s, g, w, s);
  }

  function Audited(x: State, kind: AuditKind, now: Time): State
    requires x.starts != []
  {
    x.(guard := x.guard.(audited := x.guard.audited + {kind}), audits := x.audits + [Grant(now, kind, |x.starts| - 1)])
  }

  /** How one more marker of a new kind changes the counts. */
  lemma AuditCounts(x: State, kind: AuditKind, g: Grant<AuditKind>, v: nat, k: AuditKind)
    requires AuditInv(x) && x.starts != [] && kind !in x.guard.audited
    requires g.window == |x.starts| - 1 && g.key == kind
    ensures CountInWindow(x.audits + [g], v, Some(k)) <= 1
    ensures v == |x.starts| - 1 ==>
      (k in x.guard.audited + {kind} <==> CountInWindow(x.audits + [g], v, Some(k)) > 0)
  {
    CountOfAppend(x.audits, g, v, Some(k));
    assert CountInWindow(x.audits, |x.starts| - 1, Some(kind)) == 0;
    assert v == |x.starts| - 1 ==> (k in x.guard.audited <==> CountInWindow(x.audits, v, Some(k)) > 0);
    assert CountInWindow(x.audits, v, Some(k)) <= 1;
    hide CountInWindow, AuditInv;
  }

  lemma AuditKeepsAudits(x: State, kind: AuditKind, now: Time)
    requires AuditInv(x) && InPresentWindow(x, now) && kind !in x.guard.audited
    ensures AuditInv(Audited(x, kind, now))
  {
    hide CountInWindow, InWindows;
    var w := |x.starts| - 1;
    var g := Grant(now, kind, w);
    AppendInWindows(x.audits, x.starts, g);
    forall k ensures k in x.guard.audited + {kind} <==> CountInWindow(x.audits + [g], w, Some(k)) > 0 {
      AuditCounts(x, kind, g, w, k);
    }
    forall v: nat, k ensures CountInWindow(x.audits + [g], v, Some(k)) <= 1 {
      AuditCounts(x, kind, g, v, k);
    }
  }

  lemma AdmittedKeepsInv(x: State, s: Source, now: Time)
    requires Inv(x) && InPresentWindow(x, now)
    requires x.guard.total < REQUESTS_PER_WINDOW && GetOr(x.guard.bySource, s, 0) < REQUESTS_PER_SOURCE
    ensures Inv(Admitted(x, s, now))
  {
    hide RequestInv, TableInv;
    AdmitKeepsTable(x, s, now);
    AdmitKeepsRequests(x, s, now);
  }

  lemma AuditedKeepsInv(x: State, kind: AuditKind, now: Time)
    requires Inv(x) && InPresentWindow(x, now) && kind !in x.guard.audited
    ensures Inv(Audited(x, kind, now))
  {
    hide AuditInv;
    AuditKeepsAudits(x, kind, now);
  }

  lemma RollKeepsInv(x: State, now: Time)
    requires Inv(x) && now >= x.latest
    ensures Inv(Rolled(x, now)) && InPresentWindow(Rolled(x, now), now)
  {
    RollKeepsTime(x, now);
    RollKeepsRequests(x, now);
    RollKeepsAudits(x, now);
    hide RequestInv, TableInv, AuditInv, TimeInv;
  }

  lemma StepKeepsInv(x: State, e: Event)
    requires Inv(x) && e.now >= x.latest
    ensures Inv(Step(x, e))
  {
    hide Inv, InPresentWindow;
    RollKeepsInv(x, e.now);
    var y := Rolled(x, e.now);
    NotEmpty(y, e.now);
    match e
    case AdmitEvent(s, now) =>
      if Admit(x.guard, s, now).1 { AdmittedKeepsInv(y, s, now); }
    case AuditEvent(kind, now) =>
      if ClaimAudit(x.guard, kind, now).1 { AuditedKeepsInv(y, kind, now); }
  }

  lemma NotEmpty(x: State, now: Time)
    requires InPresentWindow(x, now)
    ensures x.starts != []
  {
  }

  lemma NothingYet(x: State)
    requires x == State(EMPTY_GUARD, x.latest, [], [], [])
    ensures Inv(x)
  {
    assert TimeInv(x) && TableInv(x);
    assert RequestInv(x);
    hide TimeInv, TableInv, RequestInv;
    assert AuditInv(x);
  }

  lemma {:induction false} RunKeepsInv(states: seq<State>, events: seq<Event>, i: nat)
    requires IsRun(states, events) && i < |states|
    ensures Inv(states[i])
  {
    hide Step, Inv;
    if i > 0 {
      RunKeepsInv(states, events, i - 1);
      StepKeepsInv(states[i - 1], events[i - 1]);
    } else {
      NothingYet(states[0]);
    }
  }

  // ------------------------------------------------------------------ main results

  /** Any half-open minute admits at most 120 requests, at most 24 from one source, and at
      most two audit markers of a kind. */
  lemma AdmissionIsBounded(states: seq<State>, events: seq<Event>, i: nat, from: Time, s: Source, kind: AuditKind)
    requires IsRun(states, events) && i < |states|
    ensures CountInMinute(states[i].admitted, from, None) <= 120
    ensures CountInMinute(states[i].admitted, from, Some(s)) <= 24
    ensures CountInMinute(states[i].audits, from, Some(kind)) <= 2
  {
    RunKeepsInv(states, events, i);
    var x := states[i];
    MinuteBound(x.admitted, x.starts, from, None, REQUESTS_PER_WINDOW);
    MinuteBound(x.admitted, x.starts, from, Some(s), REQUESTS_PER_SOURCE);
    MinuteBound(x.audits, x.starts, from, Some(kind), 1);
  }

  /** The counts by source always sum to the total, and the table of sources never fills:
      admission is decided by the two request limits alone. */
  lemma SourceTableNeverFills(states: seq<State>, events: seq<Event>, i: nat, s: Source, now: Time)
    requires IsRun(states, events) && i < |states|
    ensures Sum(states[i].guard.bySource) == states[i].guard.total
    ensures |states[i].guard.bySource| <= REQUESTS_PER_WINDOW
    ensures var r := RollWindow(states[i].guard, now);
      Admit(states[i].guard, s, now).1 <==>
        r.total < REQUESTS_PER_WINDOW && GetOr(r.bySource, s, 0) < REQUESTS_PER_SOURCE
  {
    RunKeepsInv(states, events, i);
    NoMoreSourcesThanRequests(states[i].guard.bySource);
  }

  /** A new window starts exactly with the first clock value at least a minute after the
      start of the last one. */
  lemma WindowsStartAMinuteApart(states: seq<State>, events: seq<Event>, i: nat)
    requires IsRun(states, events) && i < |events|
    ensures var x, y, now := states[i], states[i + 1], events[i].now;
      && y.starts != []
      && y.starts == if x.starts == [] || now >= x.starts[|x.starts| - 1] + WINDOW then x.starts + [now] else x.starts
  {
    RunKeepsInv(states, events, i);
    hide RequestInv, TableInv, AuditInv;
  }

  /** A request is admitted, and counted in the present window, exactly while fewer than 60
      requests were admitted in that window, and fewer than 12 from its source. */
  lemma RequestIsAdmittedBelowLimits(states: seq<State>, events: seq<Event>, i: nat, s: Source, now: Time)
    requires IsRun(states, events) && i < |events| && events[i] == AdmitEvent(s, now)
    ensures states[i + 1].starts != []
    ensures var x, y := states[i], states[i + 1];
      var w: nat := |y.starts| - 1;
      var admits := CountInWindow(x.admitted, w, None) < 60 && CountInWindow(x.admitted, w, Some(s)) < 12;
      && (Admit(x.guard, s, now).1 <==> admits)
      && y.admitted == (if admits then x.admitted + [Grant(now, s, w)] else x.admitted)
      && y.audits == x.audits
  {
    assert now >= states[i].latest && states[i + 1] == Step(states[i], events[i]);
    hide *;
    RunKeepsInv(states, events, i);
    SourceTableNeverFills(states, events, i, s, now);
    RollKeepsInv(states[i], now);
    NotEmpty(Rolled(states[i], now), now);
    InvGives(Rolled(states[i], now));
    RolledRequest(states[i], s, now);
  }

  lemma InvGives(x: State)
    requires Inv(x)
    ensures RequestInv(x) && AuditInv(x)
  {
  }

  lemma RolledRequest(x: State, s: Source, now: Time)
    requires RequestInv(Rolled(x, now)) && Rolled(x, now).starts != []
    requires var r := RollWindow(x.guard, now);
      Admit(x.guard, s, now).1 <==> r.total < REQUESTS_PER_WINDOW && GetOr(r.bySource, s, 0) < REQUESTS_PER_SOURCE
    ensures var y := Step(x, AdmitEvent(s, now));
      var w: nat := |Rolled(x, now).starts| - 1;
      var admits := CountInWindow(x.admitted, w, None) < 60 && CountInWindow(x.admitted, w, Some(s)) < 12;
      && y.starts == Rolled(x, now).starts
      && (Admit(x.guard, s, now).1 <==> admits)
      && y.admitted == (if admits then x.admitted + [Grant(now, s, w)] else x.admitted)
      && y.audits == x.audits
  {
    var r := Rolled(x, now);
    assert r.guard.total == CountInWindow(r.admitted, |r.starts| - 1, None);
    assert GetOr(r.guard.bySource, s, 0) == CountInWindow(r.admitted, |r.starts| - 1, Some(s));
    hide RequestInv, CountInWindow, StartsWindow, GetOr, RollWindow;
  }

  /** An audit marker is granted exactly as the first of its kind in the present window. */
  lemma FirstMarkerIsGranted(states: seq<State>, events: seq<Event>, i: nat, kind: AuditKind, now: Time)
    requires IsRun(states, events) && i < |events| && events[i] == AuditEvent(kind, now)
    ensures states[i + 1].starts != []
    ensures var x, y := states[i], states[i + 1];
      var w: nat := |y.starts| - 1;
      var first := CountInWindow(x.audits, w, Some(kind)) == 0;
      && (ClaimAudit(x.guard, kind, now).1 <==> first)
      && y.audits == (if first then x.audits + [Grant(now, kind, w)] else x.audits)
      && y.admitted == x.admitted
  {
    assert now >= states[i].latest && states[i + 1] == Step(states[i], events[i]);
    hide *;
    RunKeepsInv(states, events, i);
    RollKeepsInv(states[i], now);
    NotEmpty(Rolled(states[i], now), now);
    InvGives(Rolled(states[i], now));
    RolledMarker(states[i], kind, now);
  }

  lemma RolledMarker(x: State, kind: AuditKind, now: Time)
    requires AuditInv(Rolled(x, now)) && Rolled(x, now).starts != []
    ensures var y := Step(x, AuditEvent(kind, now));
      var w: nat := |Rolled(x, now).starts| - 1;
      var first := CountInWindow(x.audits, w, Some(kind)) == 0;
      && y.starts == Rolled(x, now).starts
      && (ClaimAudit(x.guard, kind, now).1 <==> first)
      && y.audits == (if first then x.audits + [Grant(now, kind, w)] else x.audits)
      && y.admitted == x.admitted
  {
    var r := Rolled(x, now);
    assert kind in r.guard.audited <==> CountInWindow(r.audits, |r.starts| - 1, Some(kind)) > 0;
    hide AuditInv, CountInWindow, StartsWindow;
  }

  // ------------------------------------------- a clock that runs backwards

  /** The same runs without the assumption about the clock. */
  ghost predicate IsUnorderedRun(states: seq<State>, events: seq<Event>) {
    && |states| == |events| + 1
    && states[0] == State(EMPTY_GUARD, states[0].latest, [], [], [])
    && forall i :: 0 <= i < |events| ==> states[i + 1] == Step(states[i], events[i])
  }

  /** Pairwise different sources. */
  function SourceNumber(n: nat): Source {
    seq(n, i => 'x')
  }

  /** `n` requests of different sources have been admitted in the window begun at `now`. */
  ghost predicate Filled(x: State, now: Time, n: nat) {
    && x.guard.windowStartedAt == Some(now) && x.guard.total == n && x.starts != []
    && |x.guard.bySource| <= n
    && forall k: nat :: k >= n ==> SourceNumber(k) !in x.guard.bySource
  }

  lemma NamesDiffer(j: nat, k: nat)
    requires j != k
    ensures SourceNumber(j) != SourceNumber(k)
  {
    assert |SourceNumber(j)| == j && |SourceNumber(k)| == k;
  }

  lemma CountOneMore<K>(log: seq<Grant<K>>, g: Grant<K>, from: Time)
    ensures CountInMinute(log + [g], from, None) ==
      CountInMinute(log, from, None) + if from <= g.time < from + WINDOW then 1 else 0
  {
    assert (log + [g])[..|log|] == log;
  }

  lemma OneMoreAdmitted(x: State, now: Time, n: nat, from: Time)
    requires n < REQUESTS_PER_WINDOW && from <= now < from + WINDOW
    requires Filled(x, now, n) || (n == 0 && StartsWindow(x.guard, now))
    ensures var y := Step(x, AdmitEvent(SourceNumber(n), now));
      && Filled(y, now, n + 1)
      && CountInMinute(y.admitted, from, None) == CountInMinute(x.admitted, from, None) + 1
  {
    var s := SourceNumber(n);
    var y := Step(x, AdmitEvent(s, now));
    forall k: nat | k > n ensures SourceNumber(k) != s { NamesDiffer(k, n); }
    assert y.admitted == x.admitted + [Grant(now, s, |y.starts| - 1)];
    CountOneMore(x.admitted, Grant(now, s, |y.starts| - 1), from);
    hide CountInMinute, SourceNumber;
  }

  /** A window can be filled at one moment. */
  lemma {:induction false} FillWindow(states: seq<State>, events: seq<Event>, now: Time, n: nat, from: Time)
    returns (more: seq<State>, moreEvents: seq<Event>)
    requires IsUnorderedRun(states, events) && StartsWindow(states[|events|].guard, now)
    requires 0 < n <= REQUESTS_PER_WINDOW && from <= now < from + WINDOW
    ensures IsUnorderedRun(more, moreEvents) && Filled(more[|moreEvents|], now, n)
    ensures CountInMinute(more[|moreEvents|].admitted, from, None) ==
      CountInMinute(states[|events|].admitted, from, None) + n
  {
    hide Step, StartsWindow, CountInMinute, Filled;
    more, moreEvents := states, events;
    if n > 1 { more, moreEvents := FillWindow(states, events, now, n - 1, from); }
    var last := more[|moreEvents|];
    var e := AdmitEvent(SourceNumber(n - 1), now);
    OneMoreAdmitted(last, now, n - 1, from);
    more, moreEvents := more + [Step(last, e)], moreEvents + [e];
  }

  lemma EarlierStartsWindow(x: State, was: Time, now: Time, n: nat)
    requires Filled(x, was, n) && now < was
    ensures StartsWindow(x.guard, now)
  {
  }

  /** The bound needs the clock order: three values read in one order and used in the
      other open three windows, and 180 requests are admitted within two nanoseconds. */
  lemma BackwardClockExceedsBound() returns (states: seq<State>, events: seq<Event>)
    ensures IsUnorderedRun(states, events)
    ensures CountInMinute(states[|events|].admitted, 0, None) == 180
  {
    hide Step, Filled;
    var x := State(EMPTY_GUARD, 0, [], [], []);
    states, events := [x], [];
    assert StartsWindow(x.guard, 2) && CountInMinute(x.admitted, 0, None) == 0;
    hide StartsWindow, CountInMinute;
    states, events := FillWindow(states, events, 2, REQUESTS_PER_WINDOW, 0);
    EarlierStartsWindow(states[|events|], 2, 1, REQUESTS_PER_WINDOW);
    states, events := FillWindow(states, events, 1, REQUESTS_PER_WINDOW, 0);
    EarlierStartsWindow(states[|events|], 1, 0, REQUESTS_PER_WINDOW);
    states, events := FillWindow(states, events, 0, REQUESTS_PER_WINDOW, 0);
  }
}
