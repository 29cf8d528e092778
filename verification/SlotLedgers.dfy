/** The ledger of concrete runner slots (internal/domain/slot_ledger.go). A slot points at
    its owner, and binding an execution changes that owner in place. */
module SlotLedgers {
  import opened Common

  datatype Key = Key(node: nat, index: nat)

  /** 0 stands for an identifier that is not set. */
  datatype OwnerValue = OwnerValue(target: nat, execution: nat)

  datatype LedgerError =
    | OwnerInvalid | SlotNotFound | SlotAlreadyClaimed | FleetCapacityExhausted | SlotNotClaimed
    | SlotOwnerMismatch | SlotExecutionAlreadyBound | ExecutionRequired

  datatype Ledger = Ledger(slots: map<Key, Option<OwnerValue>>, fleetMaximum: nat, claimed: int)

  datatype Outcome = Outcome(ledger: Ledger, result: Result<(), LedgerError>)

  function Put(l: Ledger, k: Key, o: Option<OwnerValue>, change: int): Outcome {
    Outcome(l.(slots := l.slots[k := o], claimed := l.claimed + change), Ok(()))
  }

  function Claim(l: Ledger, k: Key, o: OwnerValue): Outcome {
    if o.target == 0 then Outcome(l, Err(OwnerInvalid))
    else if k !in l.slots then Outcome(l, Err(SlotNotFound))
    else if l.slots[k].Some? then Outcome(l, Err(SlotAlreadyClaimed))
    else if l.claimed >= l.fleetMaximum then Outcome(l, Err(FleetCapacityExhausted))
    else Put(l, k, Some(o), 1)
  }

  function BindExecution(l: Ledger, k: Key, target: nat, execution: nat): Outcome {
    if execution == 0 then Outcome(l, Err(ExecutionRequired))
    else if k !in l.slots then Outcome(l, Err(SlotNotFound))
    else if l.slots[k].None? then Outcome(l, Err(SlotNotClaimed))
    else if l.slots[k].value.target != target then Outcome(l, Err(SlotOwnerMismatch))
    else if l.slots[k].value.execution != 0 && l.slots[k].value.execution != execution then
      Outcome(l, Err(SlotExecutionAlreadyBound))
    else Put(l, k, Some(OwnerValue(target, execution)), 0)
  }

  function Release(l: Ledger, k: Key, o: OwnerValue): Outcome {
    if o.target == 0 then Outcome(l, Err(OwnerInvalid))
    else if k !in l.slots then Outcome(l, Err(SlotNotFound))
    else if l.slots[k].None? then Outcome(l, Err(SlotNotClaimed))
    else if l.slots[k].value != o then Outcome(l, Err(SlotOwnerMismatch))
    else Put(l, k, None, -1)
  }

  function Owned(l: Ledger): set<Key> {
    set k | k in l.slots && l.slots[k].Some?
  }

  /** What Validate checks. */
  predicate Consistent(l: Ledger) {
    && l.fleetMaximum <= |l.slots|
    && |Owned(l)| == l.claimed <= l.fleetMaximum
    && forall k :: k in Owned(l) ==> l.slots[k].value.target != 0
  }

  // ------------------------------------------------------------------ the object

  class Owner {
    var target: nat
    var execution: nat

    constructor (value: OwnerValue)
      ensures Value() == value
    {
      target, execution := value.target, value.execution;
    }

    function Value(): OwnerValue
      reads this
    {
      OwnerValue(target, execution)
    }
  }

  /** A slot as it is handed out. */
  datatype Slot = Slot(key: Key, owner: Owner?)

  class SlotLedger {
    var slots: map<Key, Owner?>
    var fleetMaximum: nat
    var claimed: int

    /** The owners the ledger points at. */
    ghost function Owners(): set<Owner>
      reads this
    {
      set k | k in slots && slots[k] != null :: slots[k]
    }

    /** No two slots share an owner. */
    ghost predicate Valid()
      reads this
    {
      forall j, k :: j in slots && k in slots && j != k && slots[j] != null ==> slots[j] != slots[k]
    }

    ghost function View(): Ledger
      reads this, Owners()
    {
      Ledger(map k | k in slots :: if slots[k] == null then None else Some(slots[k].Value()), fleetMaximum, claimed)
    }

    constructor (keys: set<Key>, fleetMaximum: nat)
      ensures Valid() && Owners() == {}
      ensures View() == Ledger(map k | k in keys :: None, fleetMaximum, 0) && slots.Keys == keys
    {
      slots := map k | k in keys :: null;
      this.fleetMaximum := fleetMaximum;
      claimed := 0;
    }

    /** The ledger keeps its own copy of the owner. */
    method ClaimSlot(k: Key, o: Owner) returns (r: Result<(), LedgerError>)
      requires Valid()
      modifies this
      ensures Valid() && Outcome(View(), r) == Claim(old(View()), k, old(o.Value()))
      ensures fresh(Owners() - old(Owners()))
    {
      if o.target == 0 { return Err(OwnerInvalid); }
      if k !in slots { return Err(SlotNotFound); }
      if slots[k] != null { return Err(SlotAlreadyClaimed); }
      if claimed >= fleetMaximum { return Err(FleetCapacityExhausted); }
      var ownerCopy := new Owner(o.Value());
      slots := slots[k := ownerCopy];
      claimed := claimed + 1;
      assert View().slots == old(View()).slots[k := Some(o.Value())];
      r := Ok(());
    }

    /** Changes the owner itself, which nobody outside the ledger holds. */
    method Bind(k: Key, target: nat, execution: nat) returns (r: Result<(), LedgerError>)
      requires Valid()
      modifies Owners()
      ensures Valid() && Owners() == old(Owners())
      ensures Outcome(View(), r) == BindExecution(old(View()), k, target, execution)
    {
      if execution == 0 { return Err(ExecutionRequired); }
      if k !in slots { return Err(SlotNotFound); }
      if slots[k] == null { return Err(SlotNotClaimed); }
      if slots[k].target != target { return Err(SlotOwnerMismatch); }
      if slots[k].execution != 0 && slots[k].execution != execution { return Err(SlotExecutionAlreadyBound); }
      slots[k].execution := execution;
      assert View().slots == old(View()).slots[k := Some(OwnerValue(target, execution))];
      r := Ok(());
    }

    method ReleaseSlot(k: Key, o: Owner) returns (r: Result<(), LedgerError>)
      requires Valid()
      modifies this
      ensures Valid() && Owners() <= old(Owners())
      ensures Outcome(View(), r) == Release(old(View()), k, old(o.Value()))
    {
      if o.target == 0 { return Err(OwnerInvalid); }
      if k !in slots { return Err(SlotNotFound); }
      if slots[k] == null { return Err(SlotNotClaimed); }
      if slots[k].target != o.target || slots[k].execution != o.execution { return Err(SlotOwnerMismatch); }
      assert View().slots[k] == Some(o.Value());
      slots := slots[k := null];
      claimed := claimed - 1;
      assert View().slots == old(View()).slots[k := None];
      r := Ok(());
    }

    /** Every slot once, each with an owner of its own: what is returned is out of reach of
        any later bind. The order is left open. */
    method Slots() returns (all: seq<Slot>)
      requires Valid()
      ensures forall i :: 0 <= i < |all| ==> all[i].key in slots && (all[i].owner == null <==> slots[all[i].key] == null)
      ensures forall i :: 0 <= i < |all| && all[i].owner != null ==>
        fresh(all[i].owner) && all[i].owner.Value() == slots[all[i].key].Value()
      ensures forall i, j :: 0 <= i < j < |all| ==> all[i].key != all[j].key
      ensures forall k :: k in slots ==> exists i :: 0 <= i < |all| && all[i].key == k
    {
      all := [];
      var pending := slots.Keys;
      while pending != {}
        invariant pending <= slots.Keys
        invariant forall i :: 0 <= i < |all| ==>
          all[i].key in slots && all[i].key !in pending && (all[i].owner == null <==> slots[all[i].key] == null)
        invariant forall i :: 0 <= i < |all| && all[i].owner != null ==>
          fresh(all[i].owner) && all[i].owner.Value() == slots[all[i].key].Value()
        invariant forall i, j :: 0 <= i < j < |all| ==> all[i].key != all[j].key
        invariant forall k :: k in slots && k !in pending ==> exists i :: 0 <= i < |all| && all[i].key == k
        decreases |pending|
      {
        var k :| k in pending;
        pending := pending - {k};
        var owner: Owner? := null;
        if slots[k] != null { owner := new Owner(slots[k].Value()); }
        ghost var before := all;
        all := all + [Slot(k, owner)];
        assert all[|before|].key == k;
        assert forall i :: 0 <= i < |before| ==> all[i] == before[i];
      }
    }
  }

  /** A value returned by Slots stays what it was while the ledger goes on. */
  method ReturnedSlotsStay(l: SlotLedger, k: Key, target: nat, execution: nat, c: Key, o: Owner, i: nat)
    returns (all: seq<Slot>, was: Option<OwnerValue>)
    requires l.Valid()
    modifies l, l.Owners()
    ensures i < |all| && all[i].owner != null ==> was == Some(all[i].owner.Value())
  {
    all := l.Slots();
    was := if i < |all| && all[i].owner != null then Some(all[i].owner.Value()) else None;
    var bound := l.Bind(k, target, execution);
    var claimed := l.ClaimSlot(c, o);
    var again := l.Bind(c, target, execution);
  }

  // ------------------------------------------------------------------- every run

  datatype Call =
    | ClaimCall(k: Key, o: OwnerValue)
    | BindCall(k: Key, target: nat, execution: nat)
    | ReleaseCall(k: Key, o: OwnerValue)

  function Perform(l: Ledger, c: Call): Outcome {
    match c
    case ClaimCall(k, o) => Claim(l, k, o)
    case BindCall(k, t, e) => BindExecution(l, k, t, e)
    case ReleaseCall(k, o) => Release(l, k, o)
  }

  function After(l: Ledger, calls: seq<Call>): Ledger {
    if calls == [] then l else Perform(After(l, calls[..|calls| - 1]), calls[|calls| - 1]).ledger
  }

  /** Claims that succeeded, less releases that succeeded. */
  function Balance(l: Ledger, calls: seq<Call>): int {
    if calls == [] then 0
    else
      var n := |calls| - 1;
      var ok := Perform(After(l, calls[..n]), calls[n]).result.Ok?;
      Balance(l, calls[..n]) + (if !ok then 0 else if calls[n].ClaimCall? then 1 else if calls[n].ReleaseCall? then -1 else 0)
  }

  /** Changing one slot moves the owned slots by that one. */
  lemma PutKeepsConsistent(l: Ledger, k: Key, o: Option<OwnerValue>, change: int)
    requires Consistent(l) && k in l.slots && (o.Some? ==> o.value.target != 0)
    requires change == (if o.Some? then 1 else 0) - (if l.slots[k].Some? then 1 else 0)
    requires l.claimed + change <= l.fleetMaximum
    ensures Consistent(Put(l, k, o, change).ledger)
  {
    var m := Put(l, k, o, change).ledger;
    assert m.slots.Keys == l.slots.Keys && |m.slots| == |m.slots.Keys| == |l.slots.Keys| == |l.slots|;
    assert Owned(m) == (if o.Some? then Owned(l) + {k} else Owned(l) - {k});
  }

  lemma PerformKeepsConsistent(l: Ledger, c: Call)
    requires Consistent(l)
    ensures Consistent(Perform(l, c).ledger)
  {
    if Perform(l, c).result.Ok? {
      match c
      case ClaimCall(k, o) => PutKeepsConsistent(l, k, Some(o), 1);
      case BindCall(k, t, e) =>
        assert k in Owned(l);
        PutKeepsConsistent(l, k, Some(OwnerValue(t, e)), 0);
      case ReleaseCall(k, _) => PutKeepsConsistent(l, k, None, -1);
    }
    hide Consistent;
  }

  /** Over every sequence of calls the ledger stays consistent: claims minus releases is
      the number of owned slots and never exceeds the fleet's maximum. */
  lemma {:induction false} LedgerStaysConsistent(l: Ledger, calls: seq<Call>)
    requires Consistent(l) && Owned(l) == {}
    ensures Consistent(After(l, calls))
    ensures Balance(l, calls) == |Owned(After(l, calls))| <= l.fleetMaximum
    ensures After(l, calls).fleetMaximum == l.fleetMaximum
  {
    if calls != [] {
      var n := |calls| - 1;
      LedgerStaysConsistent(l, calls[..n]);
      PerformKeepsConsistent(After(l, calls[..n]), calls[n]);
    }
  }

  /** A bound slot refuses another claim and a release by anyone but its exact owner. */
  lemma BoundSlotIsHeld(l: Ledger, k: Key, target: nat, execution: nat, o: OwnerValue)
    requires BindExecution(l, k, target, execution).result.Ok?
    ensures var b := BindExecution(l, k, target, execution).ledger;
      && Claim(b, k, o).result.Err?
      && (Release(b, k, o).result.Ok? ==> o == OwnerValue(target, execution))
      && BindExecution(b, k, target, execution) == Outcome(b, Ok(()))
      && (forall e :: e != execution ==> BindExecution(b, k, target, e).result.Err?)
  {
    assert l.slots[k := Some(OwnerValue(target, execution))][k := Some(OwnerValue(target, execution))] ==
      l.slots[k := Some(OwnerValue(target, execution))];
  }

  /** A claim needs a target, a free slot and fleet capacity, in this order. */
  lemma ClaimAnswers(l: Ledger, k: Key, o: OwnerValue)
    ensures var r := Claim(l, k, o);
      var free := k in l.slots && l.slots[k].None?;
      && (r.result.Ok? <==> o.target != 0 && free && l.claimed < l.fleetMaximum)
      && (r.result.Ok? ==> r.ledger == Ledger(l.slots[k := Some(o)], l.fleetMaximum, l.claimed + 1))
      && (r.result == Err(OwnerInvalid) <==> o.target == 0)
      && (r.result == Err(SlotNotFound) <==> o.target != 0 && k !in l.slots)
      && (r.result == Err(SlotAlreadyClaimed) <==> o.target != 0 && k in l.slots && !free)
      && (r.result == Err(FleetCapacityExhausted) <==> o.target != 0 && free && l.claimed >= l.fleetMaximum)
      && (r.result.Err? ==> r.ledger == l)
  {
  }

  /** Binding and releasing need the slot's owner: the same target and no other execution
      for a binding, exactly the same owner for a release. */
  lemma OwnerAnswers(l: Ledger, k: Key, o: OwnerValue)
    ensures var owner := if k in l.slots then l.slots[k] else None;
      var b := BindExecution(l, k, o.target, o.execution);
      && (b.result.Ok? <==>
            && o.execution != 0 && owner.Some? && owner.value.target == o.target
            && (owner.value.execution == 0 || owner.value.execution == o.execution))
      && (b.result.Ok? ==> b.ledger == l.(slots := l.slots[k := Some(o)]))
      && (b.result == Err(ExecutionRequired) <==> o.execution == 0)
      && (b.result == Err(SlotNotFound) <==> o.execution != 0 && k !in l.slots)
      && (b.result == Err(SlotNotClaimed) <==> o.execution != 0 && k in l.slots && owner.None?)
      && (b.result == Err(SlotOwnerMismatch) <==> o.execution != 0 && owner.Some? && owner.value.target != o.target)
      && (b.result == Err(SlotExecutionAlreadyBound) <==>
            && o.execution != 0 && owner.Some? && owner.value.target == o.target
            && owner.value.execution != 0 && owner.value.execution != o.execution)
      && (b.result.Err? ==> b.ledger == l)
    ensures var owner := if k in l.slots then l.slots[k] else None;
      var r := Release(l, k, o);
      && (r.result.Ok? <==> o.target != 0 && owner == Some(o))
      && (r.result.Ok? ==> r.ledger == Ledger(l.slots[k := None], l.fleetMaximum, l.claimed - 1))
      && (r.result == Err(OwnerInvalid) <==> o.target == 0)
      && (r.result == Err(SlotNotFound) <==> o.target != 0 && k !in l.slots)
      && (r.result == Err(SlotNotClaimed) <==> o.target != 0 && k in l.slots && owner.None?)
      && (r.result == Err(SlotOwnerMismatch) <==> o.target != 0 && owner.Some? && owner.value != o)
      && (r.result.Err? ==> r.ledger == l)
  {
  }

  /** A free slot can be claimed, bound and released again, which leaves the ledger as it
      was and the slot free for the next target. */
  lemma SlotGoesRound(l: Ledger, k: Key, target: nat, execution: nat)
    requires Consistent(l) && k in l.slots && l.slots[k].None? && l.claimed < l.fleetMaximum && target != 0 && execution != 0
    ensures var claimed := Claim(l, k, OwnerValue(target, 0));
      var bound := BindExecution(claimed.ledger, k, target, execution);
      var released := Release(bound.ledger, k, OwnerValue(target, execution));
      && claimed.result.Ok? && bound.result.Ok? && released.result.Ok? && released.ledger == l
      && Consistent(claimed.ledger) && Consistent(bound.ledger) && bound.ledger.claimed == l.claimed + 1
  {
    var claimed := Claim(l, k, OwnerValue(target, 0));
    PerformKeepsConsistent(l, ClaimCall(k, OwnerValue(target, 0)));
    PerformKeepsConsistent(claimed.ledger, BindCall(k, target, execution));
    hide Consistent;
    assert l.slots[k := Some(OwnerValue(target, 0))][k := Some(OwnerValue(target, execution))][k := None] == l.slots;
  }

  // ---------------------------------------------------------------- construction

  datatype NodeConfig = NodeConfig(id: nat, maxRunners: nat, sound: bool)

  datatype ConstructionError = InvalidNode | DuplicateNode | InvalidFleetMaximum | FleetMaximumExceedsSlots

  /** The concrete slots: one for each index below a node's maximum. */
  predicate IsSlotOf(nodes: seq<NodeConfig>, k: Key) {
    exists i :: 0 <= i < |nodes| && nodes[i].id == k.node && k.index < nodes[i].maxRunners
  }

  /** All slots of all nodes. */
  function Capacity(nodes: seq<NodeConfig>): nat {
    if nodes == [] then 0 else Capacity(nodes[..|nodes| - 1]) + nodes[|nodes| - 1].maxRunners
  }

  /** The nodes are sound and have different identifiers. */
  predicate GoodNodes(nodes: seq<NodeConfig>) {
    && (forall i :: 0 <= i < |nodes| ==> nodes[i].sound)
    && (forall i, j :: 0 <= i < j < |nodes| ==> nodes[i].id != nodes[j].id)
  }

  /** The first node that is not, and why. */
  predicate FirstBadNode(nodes: seq<NodeConfig>, i: nat, e: ConstructionError) {
    && i < |nodes| && GoodNodes(nodes[..i])
    && (if e == InvalidNode then !nodes[i].sound else nodes[i].sound && exists j :: 0 <= j < i && nodes[j].id == nodes[i].id)
  }

  method AddSlots(keys: set<Key>, node: NodeConfig) returns (more: set<Key>)
    requires forall k :: k in keys ==> k.node != node.id
    ensures forall k :: k in more <==> k in keys || (k.node == node.id && k.index < node.maxRunners)
    ensures |more| == |keys| + node.maxRunners
  {
    more := keys;
    for index := 0 to node.maxRunners
      invariant forall k :: k in more <==> k in keys || (k.node == node.id && k.index < index)
      invariant |more| == |keys| + index
    {
      more := more + {Key(node.id, index)};
    }
  }

  /** The loop over the nodes. */
  method CollectSlots(nodes: seq<NodeConfig>) returns (r: Result<set<Key>, ConstructionError>)
    ensures r.Ok? <==> GoodNodes(nodes)
    ensures r.Ok? ==> (forall k :: k in r.value <==> IsSlotOf(nodes, k)) && |r.value| == Capacity(nodes)
    ensures r.Err? ==> r.error == InvalidNode || r.error == DuplicateNode
    ensures r.Err? ==> exists i :: FirstBadNode(nodes, i, r.error)
  {
    var keys: set<Key> := {};
    var nodeIDs: set<nat> := {};
    for i := 0 to |nodes|
      invariant forall id :: id in nodeIDs <==> exists j :: 0 <= j < i && nodes[j].id == id
      invariant forall k :: k in keys <==> IsSlotOf(nodes[..i], k)
      invariant GoodNodes(nodes[..i]) && |keys| == Capacity(nodes[..i])
    {
      var node := nodes[i];
      if !node.sound {
        assert FirstBadNode(nodes, i, InvalidNode);
        return Err(InvalidNode);
      }
      if node.id in nodeIDs {
        assert FirstBadNode(nodes, i, DuplicateNode);
        return Err(DuplicateNode);
      }
      nodeIDs := nodeIDs + {node.id};
      keys := AddSlots(keys, node);
      OneMoreNode(nodes, i);
    }
    assert nodes[..|nodes|] == nodes;
    r := Ok(keys);
  }

  /** NewSlotLedger. */
  method NewSlotLedger(nodes: seq<NodeConfig>, fleetMaximum: Option<int>)
    returns (r: Result<SlotLedger, ConstructionError>)
    ensures r.Ok? ==>
      && fresh(r.value) && r.value.Valid() && Consistent(r.value.View()) && Owned(r.value.View()) == {}
      && (forall k :: k in r.value.slots <==> IsSlotOf(nodes, k))
      && r.value.fleetMaximum == if fleetMaximum.Some? then fleetMaximum.value else |r.value.slots|
    ensures r.Ok? <==> GoodNodes(nodes) && (fleetMaximum.Some? ==> 1 <= fleetMaximum.value <= Capacity(nodes))
    ensures r.Ok? ==> |r.value.slots| == Capacity(nodes)
    ensures r == Err(InvalidNode) ==> exists i :: FirstBadNode(nodes, i, InvalidNode)
    ensures r == Err(DuplicateNode) ==> exists i :: FirstBadNode(nodes, i, DuplicateNode)
    ensures r == Err(InvalidFleetMaximum) <==> GoodNodes(nodes) && fleetMaximum.Some? && fleetMaximum.value < 1
    ensures r == Err(FleetMaximumExceedsSlots) ==> GoodNodes(nodes) && fleetMaximum.Some? && fleetMaximum.value > Capacity(nodes)
  {
    var collected := CollectSlots(nodes);
    if collected.Err? { return Err(collected.error); }
    var keys := collected.value;
    var capacity := |keys|;
    if fleetMaximum.Some? && fleetMaximum.value < 1 { return Err(InvalidFleetMaximum); }
    if fleetMaximum.Some? && fleetMaximum.value > capacity { return Err(FleetMaximumExceedsSlots); }
    var ledger := new SlotLedger(keys, if fleetMaximum.Some? then fleetMaximum.value else capacity);
    assert ledger.View().slots.Keys == keys;
    assert |ledger.slots| == |keys| && |ledger.View().slots| == |keys|;
    assert Owned(ledger.View()) == {};
    hide GoodNodes, FirstBadNode;
    r := Ok(ledger);
  }

  lemma OneMoreNode(nodes: seq<NodeConfig>, i: nat)
    requires i < |nodes|
    ensures forall k :: IsSlotOf(nodes[..i + 1], k) <==>
      IsSlotOf(nodes[..i], k) || (k.node == nodes[i].id && k.index < nodes[i].maxRunners)
    ensures Capacity(nodes[..i + 1]) == Capacity(nodes[..i]) + nodes[i].maxRunners
  {
    var shorter, longer := nodes[..i], nodes[..i + 1];
    assert longer == shorter + [nodes[i]] && longer[..i] == shorter;
    forall k | IsSlotOf(shorter, k) ensures IsSlotOf(longer, k) {
      var j :| 0 <= j < i && shorter[j].id == k.node && k.index < shorter[j].maxRunners;
      assert longer[j] == shorter[j];
    }
    forall k | IsSlotOf(longer, k) ensures IsSlotOf(shorter, k) || (k.node == nodes[i].id && k.index < nodes[i].maxRunners) {
      var j :| 0 <= j <= i && longer[j].id == k.node && k.index < longer[j].maxRunners;
      if j < i { assert longer[j] == shorter[j]; }
    }
    assert longer[i] == nodes[i];
  }
}
