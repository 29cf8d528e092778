/** Which accepted command decides an execution's recovery when the Agent starts
    (internal/app/agent_runner.go). */
module StartupRecovery {
  import opened Order

  datatype CommandType = Cancel | Start | Prepare | OtherType

  datatype Command = Command(id: Text, epoch: nat, execution: Text, kind: CommandType)

  function Priority(kind: CommandType): nat {
    match kind
    case Cancel => 3
    case Start => 2
    case Prepare => 1
    case OtherType => 0
  }

  /** recoveryCommandPrecedes: the candidate replaces the current choice. */
  predicate Precedes(current: Command, candidate: Command) {
    if current.epoch != candidate.epoch then current.epoch < candidate.epoch
    else if Priority(current.kind) != Priority(candidate.kind) then Priority(current.kind) < Priority(candidate.kind)
    else Below(current.id, candidate.id)
  }

  lemma PrecedesIsTransitive(a: Command, b: Command, c: Command)
    requires Precedes(a, b) && Precedes(b, c)
    ensures Precedes(a, c)
  {
    if a.epoch == b.epoch == c.epoch && Priority(a.kind) == Priority(b.kind) == Priority(c.kind) {
      BelowIsTransitive(a.id, b.id, c.id);
    }
  }

  lemma PrecedesIsStrict(a: Command, b: Command)
    requires Precedes(a, b)
    ensures !Precedes(b, a)
  {
    if a.epoch == b.epoch && Priority(a.kind) == Priority(b.kind) { BelowIsStrict(a.id, b.id); }
  }

  /** Commands with different identifiers are always ordered. */
  lemma PrecedesIsTotal(a: Command, b: Command)
    ensures a.id == b.id || Precedes(a, b) || Precedes(b, a)
  {
    BelowIsTotal(a.id, b.id);
  }

  /** The choice for one execution: a command of it that no other command of it replaces. */
  ghost predicate IsChoice(commands: seq<Command>, c: Command) {
    c in commands && forall d :: d in commands && d.execution == c.execution ==> !Precedes(c, d)
  }

  /** The choices, execution by execution. */
  ghost predicate Chosen(commands: seq<Command>, chosen: map<Text, Command>) {
    && (forall c :: c in commands ==> c.execution in chosen)
    && (forall e :: e in chosen ==> chosen[e].execution == e && IsChoice(commands, chosen[e]))
  }

  lemma OneMoreCommand(commands: seq<Command>, c: Command, chosen: map<Text, Command>)
    requires Chosen(commands, chosen)
    requires c.execution !in chosen || Precedes(chosen[c.execution], c)
    ensures Chosen(commands + [c], chosen[c.execution := c])
  {
    var more := chosen[c.execution := c];
    forall e | e in more ensures IsChoice(commands + [c], more[e]) {
      forall d | d in commands + [c] && d.execution == more[e].execution ensures !Precedes(more[e], d) {
        if e == c.execution {
          if Precedes(c, c) { PrecedesIsStrict(c, c); }
          if d in commands && Precedes(c, d) { PrecedesIsTransitive(chosen[e], c, d); }
        }
      }
    }
  }

  lemma OneLessCommand(commands: seq<Command>, c: Command, chosen: map<Text, Command>)
    requires Chosen(commands, chosen) && c.execution in chosen && !Precedes(chosen[c.execution], c)
    ensures Chosen(commands + [c], chosen)
  {
  }

  /** The loop keeps the best command seen so far for each execution. */
  method ChooseCommands(commands: seq<Command>) returns (chosen: map<Text, Command>)
    ensures Chosen(commands, chosen)
  {
    chosen := map[];
    for i := 0 to |commands|
      invariant Chosen(commands[..i], chosen)
    {
      var command := commands[i];
      assert commands[..i + 1] == commands[..i] + [command];
      if command.execution !in chosen || Precedes(chosen[command.execution], command) {
        OneMoreCommand(commands[..i], command, chosen);
        chosen := chosen[command.execution := command];
      } else {
        OneLessCommand(commands[..i], command, chosen);
      }
    }
    assert commands[..|commands|] == commands;
  }

  ghost predicate DistinctIDs(commands: seq<Command>) {
    forall c, d :: c in commands && d in commands && c.id == d.id ==> c == d
  }

  /** Command identifiers are unique, so the choice does not depend on the order in which
      the store lists the commands. */
  lemma ChoiceIgnoresOrder(a: seq<Command>, b: seq<Command>, x: map<Text, Command>, y: map<Text, Command>)
    requires DistinctIDs(a) && (forall c :: c in a <==> c in b)
    requires Chosen(a, x) && Chosen(b, y)
    ensures x == y
  {
    forall e | e in x ensures e in y && x[e] == y[e] {
      assert x[e] in b && y[e] in a;
      PrecedesIsTotal(x[e], y[e]);
    }
    forall e | e in y ensures e in x {
      assert y[e] in a;
    }
  }

  /** A Cancel of the newest epoch decides, whatever else that epoch accepted. */
  lemma NewestCancelDecides(commands: seq<Command>, chosen: map<Text, Command>, c: Command)
    requires Chosen(commands, chosen) && c in commands && c.kind.Cancel?
    requires forall d :: d in commands && d.execution == c.execution ==> d.epoch <= c.epoch
    ensures c.execution in chosen
    ensures chosen[c.execution].kind.Cancel? && chosen[c.execution].epoch == c.epoch
  {
    var best := chosen[c.execution];
    assert best in commands && !Precedes(best, c);
  }

  /** The order of the kinds within one epoch, the deciding one first. */
  const DECIDING := [Cancel, Start, Prepare, OtherType]

  predicate Accepted(commands: seq<Command>, execution: Text, epoch: nat, kind: CommandType) {
    exists c :: c in commands && c.execution == execution && c.epoch == epoch && c.kind == kind
  }

  /** The choice is of the newest epoch; there, of the first kind in the order Cancel,
      Start, Prepare, other that was accepted; and of these, the last by identifier. */
  lemma ChoiceIsNewestDeciding(commands: seq<Command>, chosen: map<Text, Command>, execution: Text, k: nat)
    requires Chosen(commands, chosen) && execution in chosen && k < |DECIDING|
    ensures var c := chosen[execution];
      && c in commands && c.execution == execution
      && (forall d :: d in commands && d.execution == execution ==> d.epoch <= c.epoch)
      && (c.kind == DECIDING[k] <==>
            && Accepted(commands, execution, c.epoch, DECIDING[k])
            && forall j :: 0 <= j < k ==> !Accepted(commands, execution, c.epoch, DECIDING[j]))
      && (forall d :: d in commands && d.execution == execution && d.epoch == c.epoch && d.kind == c.kind ==> !Below(c.id, d.id))
  {
    var c := chosen[execution];
    forall d | d in commands && d.execution == execution ensures !Precedes(c, d) {
    }
    assert Accepted(commands, execution, c.epoch, c.kind);
    forall j | 0 <= j < |DECIDING| && Accepted(commands, execution, c.epoch, DECIDING[j])
      ensures Priority(DECIDING[j]) <= Priority(c.kind)
    {
      var d :| d in commands && d.execution == execution && d.epoch == c.epoch && d.kind == DECIDING[j];
      assert !Precedes(c, d);
    }
    var m := match c.kind case Cancel => 0 case Start => 1 case Prepare => 2 case OtherType => 3;
    assert DECIDING[m] == c.kind;
    if c.kind == DECIDING[k] {
      forall j | 0 <= j < k ensures !Accepted(commands, execution, c.epoch, DECIDING[j]) {
        assert Priority(DECIDING[j]) > Priority(DECIDING[k]);
      }
    } else if m < k {
      assert Accepted(commands, execution, c.epoch, DECIDING[m]);
    }
  }
}
