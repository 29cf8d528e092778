/** macOS private material: a Keychain item named by small locator files, written and
    removed so that no crash loses track of an item
    (internal/enroll/persistence_darwin.go, internal/enroll/pki.go).

    Each call that can fail consumes one outcome of a script; the process stops where the
    script ends. A directory entry is certain to survive a power loss only once its
    directory was synced, and a removed one may come back until then. A failed Keychain
    create makes no item. */
module DarwinPersistence {
  import opened Common

  type Account = nat

  type Contents = seq<int>

  /** A locator file and the account it names: the file at the main path, or the recovery
      file whose own name contains the account. */
  datatype Locator = Main(account: Account) | Recovery(account: Account)

  /** The locator files of one main path. */
  datatype Files = Files(main: Option<Account>, recovery: set<Account>) {
    predicate Has(l: Locator) {
      match l
      case Main(a) => main == Some(a)
      case Recovery(a) => a in recovery
    }

    function All(): set<Locator> {
      (if main.Some? then {Main(main.value)} else {}) + (set a | a in recovery :: Recovery(a))
    }

    function With(l: Locator): Files {
      match l
      case Main(a) => this.(main := Some(a))
      case Recovery(a) => this.(recovery := recovery + {a})
    }

    function Without(l: Locator): Files {
      match l
      case Main(a) => if main == Some(a) then this.(main := None) else this
      case Recovery(a) => this.(recovery := recovery - {a})
    }
  }

  const NO_FILES := Files(None, {})

  /** `visible` are the files as the process sees them, `sure` the entries certain to
      survive a power loss, `possible` those that may be found after one. */
  datatype Disk = Disk(visible: Files, sure: set<Locator>, possible: set<Locator>, items: map<Account, Contents>)

  /** BadAfter: an error is reported although the effect took place. */
  datatype Reply = Good | Bad | BadAfter

  type Script = seq<Reply>

  datatype Failure =
    | EmptyMaterial | AlreadyExists | RecoveryPending | NotFound | ReadFailed | PublishFailed
    | CreateFailed | DeleteFailed | RemoveFailed | SyncFailed | LocatorChanged

  datatype Status = Succeeded | Failed(failure: Failure) | Stopped

  /** The disk, how far the script was read, and how the operation ended. */
  datatype Run = Run(disk: Disk, next: nat, status: Status)

  // --------------------------------------------------------------------- calls

  function Synced(d: Disk): Disk {
    d.(sure := d.visible.All(), possible := d.visible.All())
  }

  /** atomicPrivateFile: link without replacing, then sync the directory. */
  function Publish(d: Disk, l: Locator, s: Script, k: nat): Run {
    if k >= |s| then Run(d, k, Stopped)
    else if s[k].Bad? || PathTaken(d.visible, l) then Run(d, k + 1, Failed(PublishFailed))
    else
      var linked := d.(visible := d.visible.With(l), possible := d.possible + {l});
      if s[k].Good? then Run(Synced(linked), k + 1, Succeeded) else Run(linked, k + 1, Failed(PublishFailed))
  }

  function Unlink(d: Disk, l: Locator, s: Script, k: nat): Run {
    if k >= |s| then Run(d, k, Stopped)
    else if s[k].Bad? then Run(d, k + 1, Failed(RemoveFailed))
    else
      Run(d.(visible := d.visible.Without(l), sure := d.sure - {l}), k + 1,
        if s[k].Good? then Succeeded else Failed(RemoveFailed))
  }

  function Sync(d: Disk, s: Script, k: nat): Run {
    if k >= |s| then Run(d, k, Stopped)
    else if s[k].Good? then Run(Synced(d), k + 1, Succeeded)
    else Run(d, k + 1, Failed(SyncFailed))
  }

  function Create(d: Disk, a: Account, contents: Contents, s: Script, k: nat): Run {
    if k >= |s| then Run(d, k, Stopped)
    else if s[k].Good? && a !in d.items then Run(d.(items := d.items[a := contents]), k + 1, Succeeded)
    else Run(d, k + 1, Failed(CreateFailed))
  }

  function Delete(d: Disk, a: Account, s: Script, k: nat): Run {
    if k >= |s| then Run(d, k, Stopped)
    else if s[k].Bad? then Run(d, k + 1, Failed(DeleteFailed))
    else Run(d.(items := d.items - {a}), k + 1, if s[k].Good? then Succeeded else Failed(DeleteFailed))
  }

  /** Whether a file exists at this locator's path. */
  predicate PathTaken(f: Files, l: Locator) {
    f.Has(l) || (l.Main? && f.main.Some?)
  }

  /** removeExpectedDarwinLocator, or with `lenient` removeMatchingDarwinLocator, which
      leaves anything but the exact expected locator alone. */
  function RemoveLocator(d: Disk, l: Locator, lenient: bool, s: Script, k: nat): Run {
    if k >= |s| then Run(d, k, Stopped)
    else if !PathTaken(d.visible, l) then Run(d, k + 1, Succeeded)
    else if !s[k].Good? then Run(d, k + 1, if lenient then Succeeded else Failed(ReadFailed))
    else if !d.visible.Has(l) then Run(d, k + 1, if lenient then Succeeded else Failed(LocatorChanged))
    else
      var unlinked := Unlink(d, l, s, k + 1);
      if unlinked.status.Succeeded? then Sync(unlinked.disk, s, k + 2) else unlinked
  }

  // -------------------------------------------------------------------- persist

  /** Replies: looking for what exists, publish recovery, create, publish main, and the
      removals on the way out. */
  function Persist(d: Disk, a: Account, contents: Contents, s: Script): Run {
    if contents == [] then Run(d, 0, Failed(EmptyMaterial))
    else if s == [] then Run(d, 0, Stopped)
    else if d.visible.main.Some? then Run(d, 1, Failed(AlreadyExists))
    else if !s[0].Good? then Run(d, 1, Failed(ReadFailed))
    else if d.visible != NO_FILES then Run(d, 1, Failed(RecoveryPending))
    else
      var recorded := Publish(d, Recovery(a), s, 1);
      if recorded.status.Stopped? then recorded
      else if recorded.status.Failed? then AfterFailure(RemoveLocator(recorded.disk, Recovery(a), true, s, 2), PublishFailed)
      else CreateAndPublish(recorded.disk, a, contents, s)
  }

  /** A failing operation reports its own failure, however its cleanup went. */
  function AfterFailure(cleanup: Run, f: Failure): Run {
    if cleanup.status.Stopped? then cleanup else cleanup.(status := Failed(f))
  }

  function CreateAndPublish(d: Disk, a: Account, contents: Contents, s: Script): Run {
    var created := Create(d, a, contents, s, 2);
    if created.status.Stopped? then created
    else if created.status.Failed? then AfterFailure(RemoveLocator(created.disk, Recovery(a), false, s, 3), CreateFailed)
    else
      var published := Publish(created.disk, Main(a), s, 3);
      if published.status.Stopped? then published
      else if published.status.Failed? then RollBack(published.disk, a, s)
      else RemoveLocator(published.disk, Recovery(a), false, s, 4)
  }

  /** The item first, then the locators that name it. */
  function RollBack(d: Disk, a: Account, s: Script): Run {
    var deleted := Delete(d, a, s, 4);
    if !deleted.status.Succeeded? then AfterFailure(deleted, PublishFailed)
    else
      var unpublished := RemoveLocator(deleted.disk, Main(a), true, s, 5);
      if !unpublished.status.Succeeded? then AfterFailure(unpublished, PublishFailed)
      else AfterFailure(RemoveLocator(unpublished.disk, Recovery(a), false, s, unpublished.next), PublishFailed)
  }

  // ------------------------------------------------------------- load and remove

  function Load(d: Disk, s: Script): Result<Contents, Status> {
    if s == [] then Err(Stopped)
    else if d.visible.main.None? then
      Err(if !s[0].Good? then Failed(ReadFailed)
          else if d.visible.recovery != {} then Failed(RecoveryPending)
          else Failed(NotFound))
    else if !s[0].Good? then Err(Failed(ReadFailed))
    else if |s| == 1 then Err(Stopped)
    else if !s[1].Good? || GetOr(d.items, d.visible.main.value, []) == [] then Err(Failed(ReadFailed))
    else Ok(d.items[d.visible.main.value])
  }

  /** A Keychain item and the files that name it. */
  datatype Reference = Reference(account: Account, paths: seq<Locator>)

  /** One reference for each account a visible file names, with exactly its files. */
  ghost predicate Covers(refs: seq<Reference>, f: Files) {
    && (forall i :: 0 <= i < |refs| ==> refs[i].paths != [])
    && (forall i, l :: 0 <= i < |refs| ==> (l in refs[i].paths <==> f.Has(l) && l.account == refs[i].account))
    && (forall l :: f.Has(l) ==> exists i :: 0 <= i < |refs| && refs[i].account == l.account)
    && (forall i, j :: 0 <= i < j < |refs| ==> refs[i].account != refs[j].account)
    && (forall i :: 0 <= i < |refs| ==> forall a, b :: 0 <= a < b < |refs[i].paths| ==> refs[i].paths[a] != refs[i].paths[b])
  }

  /** The pass over the references: the disk, the script, whether all went well, and
      whether a locator was removed. */
  datatype Pass = Pass(disk: Disk, next: nat, stopped: bool, ok: bool, removed: bool)

  function UnlinkAll(p: Pass, paths: seq<Locator>, s: Script): Pass
    decreases |paths|
  {
    if paths == [] || p.stopped then p
    else
      var u := Unlink(p.disk, paths[0], s, p.next);
      UnlinkAll(
        Pass(u.disk, u.next, u.status.Stopped?, p.ok && u.status.Succeeded?, p.removed || u.status.Succeeded?),
        paths[1..], s)
  }

  /** The locators of an item stay as long as deleting it fails. */
  function RemoveReference(p: Pass, r: Reference, s: Script): Pass {
    if p.stopped then p
    else
      var deleted := Delete(p.disk, r.account, s, p.next);
      var q := p.(disk := deleted.disk, next := deleted.next, stopped := deleted.status.Stopped?,
                  ok := p.ok && deleted.status.Succeeded?);
      if deleted.status.Succeeded? then UnlinkAll(q, r.paths, s) else q
  }

  function RemoveReferences(p: Pass, refs: seq<Reference>, s: Script): Pass
    decreases |refs|
  {
    if refs == [] then p else RemoveReferences(RemoveReference(p, refs[0], s), refs[1..], s)
  }

  /** Replies: reading the locators, then one for each delete and removal, then the sync. */
  function Remove(d: Disk, refs: seq<Reference>, s: Script): Run {
    if s == [] then Run(d, 0, Stopped)
    else if !s[0].Good? then Run(d, 1, Failed(ReadFailed))
    else
      var p := RemoveReferences(Pass(d, 1, false, true, false), refs, s);
      if p.stopped then Run(p.disk, p.next, Stopped)
      else if !p.removed then Run(p.disk, p.next, if p.ok then Succeeded else Failed(RemoveFailed))
      else
        var synced := Sync(p.disk, s, p.next);
        if synced.status.Succeeded? && !p.ok then synced.(status := Failed(RemoveFailed)) else synced
  }

  /** Every call takes one reply, or stops where there is none: a good one means success and
      the effect, a bad one neither, and one that is bad afterwards the effect alone. Each
      names its own failure. */
  lemma CallsFollowReplies(d: Disk, l: Locator, a: Account, contents: Contents, s: Script, k: nat)
    ensures var runs := [Publish(d, l, s, k), Unlink(d, l, s, k), Sync(d, s, k), Create(d, a, contents, s, k), Delete(d, a, s, k)];
      var failures := [PublishFailed, RemoveFailed, SyncFailed, CreateFailed, DeleteFailed];
      forall i :: 0 <= i < 5 ==>
        if k >= |s| then runs[i] == Run(d, k, Stopped)
        else
          && runs[i].next == k + 1
          && (runs[i].status == Succeeded || runs[i].status == Failed(failures[i]))
          && (runs[i].status == Succeeded ==> s[k].Good?)
          && (s[k].Bad? ==> runs[i].disk == d)
    ensures k < |s| && s[k].Good? ==>
      && (Publish(d, l, s, k).status.Succeeded? <==> !PathTaken(d.visible, l))
      && Unlink(d, l, s, k).status.Succeeded? && Sync(d, s, k).status.Succeeded? && Delete(d, a, s, k).status.Succeeded?
      && (Create(d, a, contents, s, k).status.Succeeded? <==> a !in d.items)
    ensures k < |s| && !s[k].Bad? ==>
      && Delete(d, a, s, k).disk == d.(items := d.items - {a})
      && Unlink(d, l, s, k).disk.visible == d.visible.Without(l)
      && (!PathTaken(d.visible, l) ==> Publish(d, l, s, k).disk.visible == d.visible.With(l))
  {
  }

  // ----------------------------------------------------------------- invariant

  /** Some file certain to survive names the item. */
  predicate Named(d: Disk, a: Account) {
    Main(a) in d.sure || Recovery(a) in d.sure
  }

  ghost predicate Inv(d: Disk) {
    && (forall l :: l in d.sure ==> d.visible.Has(l))
    && (forall l :: d.visible.Has(l) ==> l in d.possible)
    && (forall a :: a in d.items ==> Named(d, a))
  }

  lemma PublishKeepsInv(d: Disk, l: Locator, s: Script, k: nat)
    requires Inv(d)
    ensures var r := Publish(d, l, s, k);
      && Inv(r.disk) && r.disk.items == d.items && d.sure <= r.disk.sure
      && (r.status.Succeeded? ==> r.disk == Synced(d.(visible := d.visible.With(l))))
  {
  }

  /** A locator may go when its item is gone or named by another sure file. */
  lemma RemoveLocatorKeepsInv(d: Disk, l: Locator, lenient: bool, s: Script, k: nat)
    requires Inv(d)
    requires l.account in d.items ==> (if l.Main? then Recovery(l.account) else Main(l.account)) in d.sure
    ensures var r := RemoveLocator(d, l, lenient, s, k);
      && Inv(r.disk) && r.disk.items == d.items
      && (r.status.Succeeded? && !lenient && d.possible == d.visible.All() ==>
            r.disk == (if d.visible.Has(l) then Synced(d.(visible := d.visible.Without(l))) else d))
  {
  }

  lemma DeleteKeepsInv(d: Disk, a: Account, s: Script, k: nat)
    requires Inv(d)
    ensures var r := Delete(d, a, s, k);
      Inv(r.disk) && r.disk.items.Keys <= d.items.Keys && (r.status.Succeeded? ==> a !in r.disk.items)
  {
  }

  /** Wherever the process stops and whatever fails, every item stays named. */
  lemma PersistKeepsInv(d: Disk, a: Account, contents: Contents, s: Script)
    requires Inv(d)
    ensures Inv(Persist(d, a, contents, s).disk)
  {
    if contents != [] && s != [] && d.visible == NO_FILES && s[0].Good? {
      assert d.items == map[] by {
        if x :| x in d.items { assert false; }
      }
      var recorded := Publish(d, Recovery(a), s, 1);
      PublishKeepsInv(d, Recovery(a), s, 1);
      if recorded.status.Succeeded? {
        hide Inv;
        CreateKeepsInv(recorded.disk, a, contents, s);
      } else {
        RemoveLocatorKeepsInv(recorded.disk, Recovery(a), true, s, 2);
      }
    }
  }

  lemma CreateKeepsInv(d: Disk, a: Account, contents: Contents, s: Script)
    requires Inv(d) && d.items == map[] && Recovery(a) in d.sure
    ensures Inv(CreateAndPublish(d, a, contents, s).disk)
  {
    var created := Create(d, a, contents, s, 2);
    assert Inv(created.disk);
    if created.status.Failed? {
      RemoveLocatorKeepsInv(created.disk, Recovery(a), false, s, 3);
    } else if created.status.Succeeded? {
      PublishKeepsInv(created.disk, Main(a), s, 3);
      var published := Publish(created.disk, Main(a), s, 3);
      if published.status.Failed? {
        RollBackKeepsInv(published.disk, a, s);
      } else if published.status.Succeeded? {
        RemoveLocatorKeepsInv(published.disk, Recovery(a), false, s, 4);
      }
    }
  }

  lemma RollBackKeepsInv(d: Disk, a: Account, s: Script)
    requires Inv(d)
    ensures Inv(RollBack(d, a, s).disk)
  {
    DeleteKeepsInv(d, a, s, 4);
    var deleted := Delete(d, a, s, 4);
    hide Inv, Delete, RemoveLocator;
    if deleted.status.Succeeded? {
      RemoveLocatorKeepsInv(deleted.disk, Main(a), true, s, 5);
      var unpublished := RemoveLocator(deleted.disk, Main(a), true, s, 5);
      RemoveLocatorKeepsInv(unpublished.disk, Recovery(a), false, s, unpublished.next);
    }
  }

  lemma {:induction false} UnlinkAllKeepsInv(p: Pass, paths: seq<Locator>, a: Account, s: Script)
    requires Inv(p.disk) && a !in p.disk.items && forall l :: l in paths ==> l.account == a
    ensures Inv(UnlinkAll(p, paths, s).disk) && UnlinkAll(p, paths, s).disk.items == p.disk.items
    decreases |paths|
  {
    if paths != [] && !p.stopped {
      var u := Unlink(p.disk, paths[0], s, p.next);
      UnlinkAllKeepsInv(
        Pass(u.disk, u.next, u.status.Stopped?, p.ok && u.status.Succeeded?, p.removed || u.status.Succeeded?),
        paths[1..], a, s);
    }
  }

  lemma RemoveReferenceKeepsInv(p: Pass, r: Reference, s: Script)
    requires Inv(p.disk) && forall l :: l in r.paths ==> l.account == r.account
    ensures Inv(RemoveReference(p, r, s).disk)
  {
    if !p.stopped {
      var deleted := Delete(p.disk, r.account, s, p.next);
      DeleteKeepsInv(p.disk, r.account, s, p.next);
      if deleted.status.Succeeded? {
        UnlinkAllKeepsInv(p.(disk := deleted.disk, next := deleted.next, stopped := false), r.paths, r.account, s);
      }
    }
  }

  lemma {:induction false} RemoveReferencesKeepsInv(p: Pass, refs: seq<Reference>, s: Script)
    requires Inv(p.disk) && forall i, l :: 0 <= i < |refs| && l in refs[i].paths ==> l.account == refs[i].account
    ensures Inv(RemoveReferences(p, refs, s).disk)
    decreases |refs|
  {
    if refs != [] {
      hide Inv, RemoveReference;
      RemoveReferenceKeepsInv(p, refs[0], s);
      assert forall l :: l in refs[0].paths ==> l.account == refs[0].account;
      RemoveReferencesKeepsInv(RemoveReference(p, refs[0], s), refs[1..], s);
    }
  }

  lemma RemoveKeepsInv(d: Disk, refs: seq<Reference>, s: Script)
    requires Inv(d) && Covers(refs, d.visible)
    ensures Inv(Remove(d, refs, s).disk)
  {
    RemoveReferencesKeepsInv(Pass(d, 1, false, true, false), refs, s);
  }

  // ------------------------------------------------------------------- every run

  datatype Operation =
    | PersistCall(a: Account, contents: Contents, s: Script)
    | RemoveCall(refs: seq<Reference>, s: Script)
    | PowerLoss(survivors: Files)

  ghost predicate Possible(d: Disk, op: Operation) {
    match op
    case PersistCall(_, _, _) => true
    case RemoveCall(refs, _) => Covers(refs, d.visible)
    case PowerLoss(survivors) => d.sure <= survivors.All() <= d.possible
  }

  function Perform(d: Disk, op: Operation): Disk {
    match op
    case PersistCall(a, contents, s) => Persist(d, a, contents, s).disk
    case RemoveCall(refs, s) => Remove(d, refs, s).disk
    case PowerLoss(survivors) => Disk(survivors, survivors.All(), survivors.All(), d.items)
  }

  const NOTHING := Disk(NO_FILES, {}, {}, map[])

  /** Any operations, each stopping anywhere, with power losses in between. */
  ghost predicate IsRun(disks: seq<Disk>, ops: seq<Operation>) {
    && |disks| == |ops| + 1
    && disks[0] == NOTHING
    && forall i :: 0 <= i < |ops| ==> Possible(disks[i], ops[i]) && disks[i + 1] == Perform(disks[i], ops[i])
  }

  lemma PerformKeepsInv(d: Disk, op: Operation)
    requires Inv(d) && Possible(d, op)
    ensures Inv(Perform(d, op))
  {
    match op
    case PersistCall(a, contents, s) => PersistKeepsInv(d, a, contents, s);
    case RemoveCall(refs, s) => RemoveKeepsInv(d, refs, s);
    case PowerLoss(survivors) =>
      assert forall l :: l in survivors.All() <==> survivors.Has(l);
  }

  lemma {:induction false} RunKeepsInv(disks: seq<Disk>, ops: seq<Operation>, i: nat)
    requires IsRun(disks, ops) && i < |disks|
    ensures Inv(disks[i])
  {
    if i > 0 {
      RunKeepsInv(disks, ops, i - 1);
      hide Inv, Possible, Perform;
      PerformKeepsInv(disks[i - 1], ops[i - 1]);
    }
  }

  /** Over any run, each Keychain item is named by a main or recovery locator that is
      visible and certain to survive. */
  lemma ItemsStayNamed(disks: seq<Disk>, ops: seq<Operation>, i: nat, a: Account)
    requires IsRun(disks, ops) && i < |disks| && a in disks[i].items
    ensures exists l: Locator :: l.account == a && disks[i].visible.Has(l) && l in disks[i].sure
  {
    RunKeepsInv(disks, ops, i);
    hide IsRun;
    var l := if Main(a) in disks[i].sure then Main(a) else Recovery(a);
    assert Named(disks[i], a);
    assert l in disks[i].sure;
  }

  /** A nil persist leaves exactly the main locator, durably, and load returns the contents. */
  lemma PersistedMaterialLoads(d: Disk, a: Account, contents: Contents, s: Script)
    requires Inv(d) && Persist(d, a, contents, s).status.Succeeded?
    ensures Persist(d, a, contents, s).disk ==
      Disk(Files(Some(a), {}), {Main(a)}, {Main(a)}, map[a := contents])
    ensures Load(Persist(d, a, contents, s).disk, [Good, Good]) == Ok(contents)
  {
    assert d.visible == NO_FILES;
    assert d.items == map[] by {
      if x :| x in d.items { assert false; }
    }
    var recorded := Publish(d, Recovery(a), s, 1).disk;
    assert recorded.visible == Files(None, {a});
    var created := Create(recorded, a, contents, s, 2).disk;
    var published := Publish(created, Main(a), s, 3).disk;
    assert published.visible == Files(Some(a), {a});
    assert published.visible.Without(Recovery(a)) == Files(Some(a), {});
    assert Files(Some(a), {}).All() == {Main(a)};
  }

  /** While a recovery locator is left, no key is replaced: load and persist both refuse,
      and persist changes nothing. */
  lemma PendingRecoveryBlocksReplacement(d: Disk, a: Account, contents: Contents, s: Script)
    requires d.visible.main.None? && d.visible.recovery != {} && contents != []
    ensures s != [] && s[0].Good? ==> Load(d, s) == Err(Failed(RecoveryPending))
    ensures Persist(d, a, contents, s).disk == d && !Persist(d, a, contents, s).status.Succeeded?
  {
  }

  // -------------------------------------------------------------- what remove leaves

  lemma {:induction false} UnlinkAllRemoves(p: Pass, paths: seq<Locator>, s: Script)
    ensures var q := UnlinkAll(p, paths, s);
      !q.stopped && q.ok ==>
        && !p.stopped && p.ok
        && (forall l :: q.disk.visible.Has(l) <==> p.disk.visible.Has(l) && l !in paths)
        && q.removed == (p.removed || paths != [])
    decreases |paths|
  {
    if paths != [] && !p.stopped {
      var u := Unlink(p.disk, paths[0], s, p.next);
      var q := Pass(u.disk, u.next, u.status.Stopped?, p.ok && u.status.Succeeded?, p.removed || u.status.Succeeded?);
      UnlinkAllRemoves(q, paths[1..], s);
      assert forall l :: l in paths <==> l == paths[0] || l in paths[1..];
    }
  }

  lemma {:induction false} RemoveReferencesRemoves(p: Pass, refs: seq<Reference>, s: Script)
    requires forall i :: 0 <= i < |refs| ==> refs[i].paths != []
    ensures var q := RemoveReferences(p, refs, s);
      !q.stopped && q.ok ==>
        && !p.stopped && p.ok
        && (forall l :: q.disk.visible.Has(l) ==> p.disk.visible.Has(l) && forall i :: 0 <= i < |refs| ==> l !in refs[i].paths)
        && q.removed == (p.removed || refs != [])
        && (!q.removed ==> q.disk == p.disk)
    decreases |refs|
  {
    if refs != [] {
      var m := RemoveReference(p, refs[0], s);
      if !p.stopped {
        var deleted := Delete(p.disk, refs[0].account, s, p.next);
        if deleted.status.Succeeded? {
          UnlinkAllRemoves(p.(disk := deleted.disk, next := deleted.next, stopped := false), refs[0].paths, s);
        }
      }
      hide RemoveReference;
      RemoveReferencesRemoves(m, refs[1..], s);
      assert forall i :: 0 < i < |refs| ==> refs[i] == refs[1..][i - 1];
    }
  }

  /** A nil remove leaves no item and no locator. The absence is itself durable exactly
      when something was there to remove or no unsynced entry was left from before. */
  lemma RemoveLeavesNothing(d: Disk, refs: seq<Reference>, s: Script)
    requires Inv(d) && Covers(refs, d.visible) && Remove(d, refs, s).status.Succeeded?
    ensures var r := Remove(d, refs, s).disk;
      && r.visible == NO_FILES && r.items == map[] && r.sure == {}
      && (r.possible == {} <==> refs != [] || d.possible == {})
  {
    var start := Pass(d, 1, false, true, false);
    RemoveReferencesRemoves(start, refs, s);
    RemoveKeepsInv(d, refs, s);
    var r := Remove(d, refs, s).disk;
    hide RemoveReferences;
    assert forall l :: !r.visible.Has(l);
    NothingVisible(r);
    assert NO_FILES.All() == {};
  }

  lemma NothingVisible(d: Disk)
    requires Inv(d) && forall l :: !d.visible.Has(l)
    ensures d.visible == NO_FILES && d.sure == {} && d.items == map[]
  {
    if a :| a in d.visible.recovery { assert d.visible.Has(Recovery(a)); }
    if d.visible.main.Some? { assert d.visible.Has(Main(d.visible.main.value)); }
    if a :| a in d.items { assert false; }
  }

  /** A removal whose sync failed succeeds when retried, because nothing is visible any
      more; its locator may still come back after a power loss, naming no item. */
  lemma RetriedRemoveMayForget(a: Account, contents: Contents)
    ensures var d := Disk(Files(Some(a), {}), {Main(a)}, {Main(a)}, map[a := contents]);
      var once := Remove(d, [Reference(a, [Main(a)])], [Good, Good, Good, Bad]);
      var twice := Remove(once.disk, [], [Good]);
      && once.status.Failed? && twice.status.Succeeded?
      && twice.disk.possible == {Main(a)}
      && Possible(twice.disk, PowerLoss(Files(Some(a), {})))
      && Perform(twice.disk, PowerLoss(Files(Some(a), {}))).items == map[]
  {
    var d := Disk(Files(Some(a), {}), {Main(a)}, {Main(a)}, map[a := contents]);
    var s := [Good, Good, Good, Bad];
    var r := Reference(a, [Main(a)]);
    var p := Pass(d, 1, false, true, false);
    var deleted := Delete(d, a, s, 1);
    var q := p.(disk := deleted.disk, next := 2);
    assert UnlinkAll(q, [Main(a)], s) == UnlinkAll(Pass(Unlink(q.disk, Main(a), s, 2).disk, 3, false, true, true), [], s);
    assert RemoveReferences(p, [r], s) == RemoveReferences(RemoveReference(p, r, s), [], s);
    assert Files(Some(a), {}).All() == {Main(a)};
  }

  // ------------------------------------------------------- a removal that succeeds

  function Calls(refs: seq<Reference>): nat {
    if refs == [] then 0 else 1 + |refs[0].paths| + Calls(refs[1..])
  }

  predicate AllGood(s: Script, from: nat, to: nat) {
    to <= |s| && forall i :: from <= i < to ==> s[i].Good?
  }

  lemma {:induction false} UnlinkAllSucceeds(p: Pass, paths: seq<Locator>, s: Script)
    requires !p.stopped && p.ok && AllGood(s, p.next, p.next + |paths|)
    ensures var q := UnlinkAll(p, paths, s);
      !q.stopped && q.ok && q.next == p.next + |paths|
    decreases |paths|
  {
    if paths != [] {
      var u := Unlink(p.disk, paths[0], s, p.next);
      UnlinkAllSucceeds(Pass(u.disk, u.next, false, true, true), paths[1..], s);
    }
  }

  lemma {:induction false} RemoveReferencesSucceeds(p: Pass, refs: seq<Reference>, s: Script)
    requires !p.stopped && p.ok && AllGood(s, p.next, p.next + Calls(refs))
    ensures var q := RemoveReferences(p, refs, s);
      !q.stopped && q.ok && q.next == p.next + Calls(refs)
    decreases |refs|
  {
    if refs != [] {
      var deleted := Delete(p.disk, refs[0].account, s, p.next);
      UnlinkAllSucceeds(p.(disk := deleted.disk, next := deleted.next), refs[0].paths, s);
      RemoveReferencesSucceeds(RemoveReference(p, refs[0], s), refs[1..], s);
    }
  }

  /** Whatever earlier crashes and failures left behind, one removal without failures
      deletes every item and every locator. */
  lemma RemoveRecoversEverything(d: Disk, refs: seq<Reference>, s: Script)
    requires Inv(d) && Covers(refs, d.visible) && AllGood(s, 0, Calls(refs) + 2)
    ensures var r := Remove(d, refs, s);
      r.status.Succeeded? && r.disk.visible == NO_FILES && r.disk.items == map[]
  {
    RemoveReferencesSucceeds(Pass(d, 1, false, true, false), refs, s);
    RemoveLeavesNothing(d, refs, s);
  }

  predicate SaidGood(s: Script, i: nat) {
    i < |s| && s[i].Good?
  }

  predicate AllSaidGood(s: Script, from: nat, to: nat) {
    forall i :: from <= i < to ==> SaidGood(s, i)
  }

  lemma {:induction false} UnlinkAllNeedsGood(p: Pass, paths: seq<Locator>, s: Script)
    ensures var q := UnlinkAll(p, paths, s);
      !q.stopped && q.ok ==> q.next == p.next + |paths| && AllSaidGood(s, p.next, q.next)
    decreases |paths|
  {
    UnlinkAllRemoves(p, paths, s);
    if paths != [] && !p.stopped {
      var u := Unlink(p.disk, paths[0], s, p.next);
      var m := Pass(u.disk, u.next, u.status.Stopped?, p.ok && u.status.Succeeded?, p.removed || u.status.Succeeded?);
      UnlinkAllNeedsGood(m, paths[1..], s);
      UnlinkAllRemoves(m, paths[1..], s);
      var r := UnlinkAll(p, paths, s);
      assert r == UnlinkAll(m, paths[1..], s);
      if !r.stopped && r.ok {
        assert SaidGood(s, p.next) && m.next == p.next + 1;
      }
    }
  }

  lemma {:induction false} RemoveReferencesNeedsGood(p: Pass, refs: seq<Reference>, s: Script)
    requires forall i :: 0 <= i < |refs| ==> refs[i].paths != []
    ensures var q := RemoveReferences(p, refs, s);
      !q.stopped && q.ok ==> q.next == p.next + Calls(refs) && AllSaidGood(s, p.next, q.next)
    decreases |refs|
  {
    RemoveReferencesRemoves(p, refs, s);
    if refs != [] && !p.stopped {
      var m := RemoveReference(p, refs[0], s);
      RemoveReferencesNeedsGood(m, refs[1..], s);
      RemoveReferencesRemoves(m, refs[1..], s);
      var deleted := Delete(p.disk, refs[0].account, s, p.next);
      if deleted.status.Succeeded? {
        var q := p.(disk := deleted.disk, next := deleted.next, stopped := false);
        UnlinkAllNeedsGood(q, refs[0].paths, s);
        UnlinkAllRemoves(q, refs[0].paths, s);
        assert m == UnlinkAll(q, refs[0].paths, s) || !p.ok;
      }
    }
  }

  /** A removal returns nil exactly when none of its calls failed: the read, the delete of
      each item, the removal of each of its files, and the sync if there was any. */
  lemma RemoveSucceedsIffNothingFails(d: Disk, refs: seq<Reference>, s: Script)
    requires Covers(refs, d.visible)
    ensures Remove(d, refs, s).status.Succeeded? <==> AllGood(s, 0, 1 + Calls(refs) + (if refs == [] then 0 else 1))
    ensures s != [] ==> (Remove(d, refs, s).status == Failed(ReadFailed) <==> !s[0].Good?)
  {
    var start := Pass(d, 1, false, true, false);
    RemoveReferencesNeedsGood(start, refs, s);
    RemoveReferencesRemoves(start, refs, s);
    if AllGood(s, 0, 1 + Calls(refs)) { RemoveReferencesSucceeds(start, refs, s); }
    hide RemoveReferences, Covers;
    if Remove(d, refs, s).status.Succeeded? {
      var n := 1 + Calls(refs) + (if refs == [] then 0 else 1);
      assert AllSaidGood(s, 1, 1 + Calls(refs)) && SaidGood(s, 0);
      assert refs != [] ==> SaidGood(s, n - 1);
      assert SaidGood(s, n - 1);
      forall i | 0 <= i < n ensures i < |s| && s[i].Good? {
        assert SaidGood(s, i);
      }
    }
  }

  lemma {:induction false} UnlinkAllKeepsOthers(p: Pass, paths: seq<Locator>, l: Locator, s: Script)
    requires l !in paths && p.disk.visible.Has(l)
    ensures UnlinkAll(p, paths, s).disk.visible.Has(l) && UnlinkAll(p, paths, s).disk.items == p.disk.items
    decreases |paths|
  {
    if paths != [] && !p.stopped {
      var u := Unlink(p.disk, paths[0], s, p.next);
      UnlinkAllKeepsOthers(
        Pass(u.disk, u.next, u.status.Stopped?, p.ok && u.status.Succeeded?, p.removed || u.status.Succeeded?),
        paths[1..], l, s);
    }
  }

  /** However a removal ends, an item that is still there keeps every file that names it,
      and its contents. */
  lemma {:induction false} KeptItemsKeepTheirFiles(p: Pass, refs: seq<Reference>, a: Account, l: Locator, s: Script)
    requires l.account == a && p.disk.visible.Has(l)
    requires forall i, m :: 0 <= i < |refs| && m in refs[i].paths ==> m.account == refs[i].account
    ensures var q := RemoveReferences(p, refs, s);
      a in q.disk.items ==> q.disk.visible.Has(l) && a in p.disk.items && q.disk.items[a] == p.disk.items[a]
    decreases |refs|
  {
    if refs != [] {
      var r := refs[0];
      var m := RemoveReference(p, r, s);
      if !p.stopped {
        var deleted := Delete(p.disk, r.account, s, p.next);
        if deleted.status.Succeeded? {
          UnlinkAllKeepsItems(p.(disk := deleted.disk, next := deleted.next, stopped := false), r.paths, s);
          if r.account != a {
            assert l !in r.paths;
            UnlinkAllKeepsOthers(p.(disk := deleted.disk, next := deleted.next, stopped := false), r.paths, l, s);
          }
        }
      }
      if r.account == a && !p.stopped && Delete(p.disk, a, s, p.next).status.Succeeded? {
        RemoveReferencesKeepsAbsent(m, refs[1..], a, s);
      } else {
        assert forall i :: 0 <= i < |refs[1..]| ==> refs[1..][i] == refs[i + 1];
        KeptItemsKeepTheirFiles(m, refs[1..], a, l, s);
      }
    }
  }

  lemma {:induction false} UnlinkAllKeepsItems(p: Pass, paths: seq<Locator>, s: Script)
    ensures UnlinkAll(p, paths, s).disk.items == p.disk.items
    decreases |paths|
  {
    if paths != [] && !p.stopped {
      var u := Unlink(p.disk, paths[0], s, p.next);
      UnlinkAllKeepsItems(
        Pass(u.disk, u.next, u.status.Stopped?, p.ok && u.status.Succeeded?, p.removed || u.status.Succeeded?), paths[1..], s);
    }
  }

  lemma {:induction false} RemoveReferencesKeepsAbsent(p: Pass, refs: seq<Reference>, a: Account, s: Script)
    requires a !in p.disk.items
    ensures a !in RemoveReferences(p, refs, s).disk.items
    decreases |refs|
  {
    if refs != [] {
      if !p.stopped {
        var deleted := Delete(p.disk, refs[0].account, s, p.next);
        if deleted.status.Succeeded? {
          UnlinkAllKeepsItems(p.(disk := deleted.disk, next := deleted.next, stopped := false), refs[0].paths, s);
        }
      }
      RemoveReferencesKeepsAbsent(RemoveReference(p, refs[0], s), refs[1..], a, s);
    }
  }

  /** What a load answers: the contents of the named item, or why there are none. */
  lemma LoadAnswers(d: Disk, s: Script)
    requires |s| >= 2
    ensures var main := d.visible.main;
      && (Load(d, s).Ok? <==>
            s[0].Good? && s[1].Good? && main.Some? && main.value in d.items && d.items[main.value] != [])
      && (Load(d, s).Ok? ==> Load(d, s).value == d.items[main.value])
      && (Load(d, s) == Err(Failed(NotFound)) <==> s[0].Good? && d.visible == NO_FILES)
      && (Load(d, s) == Err(Failed(RecoveryPending)) <==> s[0].Good? && main.None? && d.visible.recovery != {})
  {
  }

  // -------------------------------------------------- a persist with one failure

  /** The call with number k fails, in either way, and every other call succeeds. */
  predicate FailsOnlyAt(s: Script, k: nat) {
    k < |s| && AllGood(s, 0, k) && !s[k].Good? && AllGood(s, k + 1, |s|)
  }

  /** Without failures a persist from nothing succeeds. */
  lemma PersistSucceeds(a: Account, contents: Contents, s: Script)
    requires contents != [] && AllGood(s, 0, 7)
    ensures Persist(NOTHING, a, contents, s).status.Succeeded?
  {
    var recorded := Publish(NOTHING, Recovery(a), s, 1).disk;
    assert recorded.visible == Files(None, {a});
    var published := Publish(Create(recorded, a, contents, s, 2).disk, Main(a), s, 3);
    assert published.status.Succeeded? && published.disk.visible == Files(Some(a), {a});
  }

  /** Until the main locator is published, a single failure is undone without a trace. From
      then on the new material stays, loads, and is named durably by its main locator; the
      failure only concerns the recovery locator, which is left when its removal failed. */
  lemma OneFailureIsUndone(a: Account, contents: Contents, s: Script, k: nat)
    requires contents != [] && FailsOnlyAt(s, k) && |s| >= 11
    ensures var r := Persist(NOTHING, a, contents, s);
      && (r.status.Succeeded? <==> k > 6)
      && (k <= 3 ==> r.disk == NOTHING)
      && (k == 0 ==> r.status == Failed(ReadFailed))
      && (k == 2 ==> r.status == Failed(CreateFailed))
      && (k == 1 || k == 3 ==> r.status == Failed(PublishFailed))
      && (k == 4 ==> r.status == Failed(ReadFailed))
      && (k == 5 ==> r.status == Failed(RemoveFailed))
      && (k == 6 ==> r.status == Failed(SyncFailed))
      && (k > 3 ==>
            && r.disk.items == map[a := contents] && Main(a) in r.disk.sure
            && Load(r.disk, [Good, Good]) == Ok(contents)
            && r.disk.visible == Files(Some(a), if k == 4 || (k == 5 && s[k].Bad?) then {a} else {}))
  {
    if k == 1 {
      RecoveryFailureIsUndone(a, contents, s);
    } else if k > 1 {
      var recorded := Publish(NOTHING, Recovery(a), s, 1);
      assert recorded.status.Succeeded? && recorded.disk == Recorded(a);
      assert Persist(NOTHING, a, contents, s) == CreateAndPublish(Recorded(a), a, contents, s);
      if k == 2 {
        CreateFailureIsUndone(a, contents, s);
      } else if k == 3 {
        PublishFailureIsUndone(a, contents, s);
      } else {
        CleanupFailureKeepsMaterial(a, contents, s, k);
      }
    }
  }

  /** The disk once the recovery locator is durable. */
  function Recorded(a: Account): Disk {
    Disk(Files(None, {a}), {Recovery(a)}, {Recovery(a)}, map[])
  }

  lemma RecoveryFailureIsUndone(a: Account, contents: Contents, s: Script)
    requires contents != [] && FailsOnlyAt(s, 1) && |s| >= 11
    ensures var r := Persist(NOTHING, a, contents, s); r.status == Failed(PublishFailed) && r.disk == NOTHING
  {
    var recorded := Publish(NOTHING, Recovery(a), s, 1);
    if s[1].BadAfter? {
      assert recorded.disk.visible == Files(None, {a});
      assert recorded.disk.visible.Without(Recovery(a)) == NO_FILES;
    }
    assert NO_FILES.All() == {};
  }

  lemma CreateFailureIsUndone(a: Account, contents: Contents, s: Script)
    requires contents != [] && FailsOnlyAt(s, 2) && |s| >= 11
    ensures var r := CreateAndPublish(Recorded(a), a, contents, s); r.status == Failed(CreateFailed) && r.disk == NOTHING
  {
    assert Recorded(a).visible.Without(Recovery(a)) == NO_FILES && NO_FILES.All() == {};
  }

  lemma PublishFailureIsUndone(a: Account, contents: Contents, s: Script)
    requires contents != [] && FailsOnlyAt(s, 3) && |s| >= 11
    ensures var r := CreateAndPublish(Recorded(a), a, contents, s); r.status == Failed(PublishFailed) && r.disk == NOTHING
  {
    var created := Recorded(a).(items := map[a := contents]);
    var published := Publish(created, Main(a), s, 3);
    assert published.status.Failed?;
    assert published.disk.items - {a} == map[];
    assert published.disk.visible == Files(if s[3].Bad? then None else Some(a), {a});
    assert Files(Some(a), {a}).Without(Main(a)) == Files(None, {a});
    assert Files(None, {a}).Without(Recovery(a)) == NO_FILES && NO_FILES.All() == {};
  }

  lemma CleanupFailureKeepsMaterial(a: Account, contents: Contents, s: Script, k: nat)
    requires contents != [] && k > 3 && FailsOnlyAt(s, k) && |s| >= 11
    ensures var r := CreateAndPublish(Recorded(a), a, contents, s);
      && (r.status.Succeeded? <==> k > 6)
      && (k <= 6 ==> r.status == Failed(if k == 4 then ReadFailed else if k == 5 then RemoveFailed else SyncFailed))
      && r.disk.items == map[a := contents] && Main(a) in r.disk.sure && r.disk.visible.main == Some(a)
      && r.disk.visible.recovery == if k == 4 || (k == 5 && s[k].Bad?) then {a} else {}
  {
    var created := Recorded(a).(items := map[a := contents]);
    var published := Publish(created, Main(a), s, 3);
    assert published.status.Succeeded? && published.disk.visible == Files(Some(a), {a});
    assert Files(Some(a), {a}).Without(Recovery(a)) == Files(Some(a), {});
  }

  /** A persist that may not begin says why, and touches nothing. */
  lemma PersistRefusals(d: Disk, a: Account, contents: Contents, s: Script)
    requires s != []
    ensures var r := Persist(d, a, contents, s);
      var present, unread := d.visible.main.Some?, !s[0].Good?;
      && (r.status == Failed(EmptyMaterial) <==> contents == [])
      && (r.status == Failed(AlreadyExists) <==> contents != [] && present)
      && (contents != [] && !present && unread ==> r.status == Failed(ReadFailed))
      && (r.status == Failed(RecoveryPending) <==> contents != [] && !present && !unread && d.visible.recovery != {})
      && (contents == [] || present || unread || d.visible.recovery != {} ==> r.disk == d && r.next <= 1)
  {
  }

  /** Why the first failure of a persist is told, whatever happens during the cleanup. */
  function ReasonOf(k: nat): Failure {
    if k == 0 then ReadFailed else if k == 2 then CreateFailed else PublishFailed
  }

  lemma FirstFailureIsTold(a: Account, contents: Contents, s: Script, k: nat)
    requires contents != [] && k <= 3 && k < |s| && AllGood(s, 0, k) && !s[k].Good?
    ensures var r := Persist(NOTHING, a, contents, s);
      && (r.status == Failed(ReasonOf(k)) || r.status == Stopped)
      && (|s| >= 11 ==> r.status == Failed(ReasonOf(k)))
      && (r.status == Stopped ==> r.next == |s|)
  {
    if k > 1 {
      assert Publish(NOTHING, Recovery(a), s, 1).disk == Recorded(a);
      assert Persist(NOTHING, a, contents, s) == CreateAndPublish(Recorded(a), a, contents, s);
    }
  }

  /** Without failures, a process that stops after so many calls leaves exactly what they
      did: nothing, the recovery locator, the item, both locators, and at last the main one
      with a recovery entry that may still come back. */
  lemma StoppedPersistLeaves(a: Account, contents: Contents, s: Script)
    requires contents != [] && AllGood(s, 0, |s|) && |s| <= 6
    ensures var r := Persist(NOTHING, a, contents, s);
      && r.status == Stopped && r.next == |s|
      && (|s| <= 1 ==> r.disk == NOTHING)
      && (|s| == 2 ==> r.disk == Recorded(a))
      && (|s| == 3 ==> r.disk == Recorded(a).(items := map[a := contents]))
      && (|s| == 4 || |s| == 5 ==>
            r.disk == Disk(Files(Some(a), {a}), {Main(a), Recovery(a)}, {Main(a), Recovery(a)}, map[a := contents]))
      && (|s| == 6 ==> r.disk == Disk(Files(Some(a), {}), {Main(a)}, {Main(a), Recovery(a)}, map[a := contents]))
  {
    if |s| >= 2 {
      assert Publish(NOTHING, Recovery(a), s, 1).disk == Recorded(a);
      assert Persist(NOTHING, a, contents, s) == CreateAndPublish(Recorded(a), a, contents, s);
    }
    if |s| >= 4 {
      var published := Publish(Recorded(a).(items := map[a := contents]), Main(a), s, 3);
      assert published.status.Succeeded? && published.disk.visible == Files(Some(a), {a});
      assert Files(Some(a), {a}).All() == {Main(a), Recovery(a)};
      assert Files(Some(a), {a}).Without(Recovery(a)) == Files(Some(a), {});
    }
  }

  /** A rollback that fails in turn stops there: every locator stays while the item may still
      be there, and the recovery locator stays while the main one does. */
  lemma FailedRollBackKeepsLocators(a: Account, contents: Contents, s: Script)
    requires contents != [] && |s| >= 11 && AllGood(s, 0, 3) && !s[3].Good?
    ensures var r := Persist(NOTHING, a, contents, s);
      var published := s[3].BadAfter?;
      && r.status == Failed(PublishFailed)
      && (!s[4].Good? ==> r.disk.visible == Files(if published then Some(a) else None, {a}))
      && (s[4].Bad? ==> r.disk.items == map[a := contents]) && (!s[4].Bad? ==> r.disk.items == map[])
      && (published && s[4].Good? && (!s[5].Good? || s[6].Bad?) ==> r.disk.visible.main == Some(a))
      && (published && s[4].Good? && s[5].Good? && !s[6].Good? ==> r.disk.visible.recovery == {a})
  {
    var created := Recorded(a).(items := map[a := contents]);
    assert Publish(NOTHING, Recovery(a), s, 1).disk == Recorded(a);
    assert Persist(NOTHING, a, contents, s) == CreateAndPublish(Recorded(a), a, contents, s);
    var published := Publish(created, Main(a), s, 3);
    assert published.disk.visible == Files(if s[3].BadAfter? then Some(a) else None, {a});
    assert published.disk.items - {a} == map[];
  }

  /** Only the exact expected locator is removed: the strict form refuses to judge what it
      cannot read and to remove what has changed, the lenient one leaves it alone. */
  lemma LocatorRemovalAnswers(d: Disk, l: Locator, lenient: bool, s: Script, k: nat)
    requires k + 3 <= |s|
    ensures var r := RemoveLocator(d, l, lenient, s, k);
      var taken := d.visible.Has(l) || (l.Main? && d.visible.main.Some?);
      var expected := s[k].Good? && d.visible.Has(l);
      && (r.status == Failed(ReadFailed) <==> taken && !s[k].Good? && !lenient)
      && (r.status == Failed(LocatorChanged) <==> taken && s[k].Good? && !d.visible.Has(l) && !lenient)
      && (r.status == Failed(RemoveFailed) <==> expected && !s[k + 1].Good?)
      && (r.status == Failed(SyncFailed) <==> expected && s[k + 1].Good? && !s[k + 2].Good?)
      && (r.status.Succeeded? <==> r.status !in {Failed(ReadFailed), Failed(LocatorChanged), Failed(RemoveFailed), Failed(SyncFailed)})
      && r.disk.visible == (if expected && !s[k + 1].Bad? then d.visible.Without(l) else d.visible)
      && r.disk.items == d.items
      && r.next == k + (if !expected then 1 else if s[k + 1].Good? then 3 else 2)
  {
  }

  /** The recovery file of an account already referenced by the main locator. */
  lemma AddToReference(refs: seq<Reference>, f: Files, a: Account, i: nat)
    requires Covers(refs, f) && a !in f.recovery && i < |refs| && refs[i].account == a
    ensures Covers(refs[i := Reference(a, refs[i].paths + [Recovery(a)])], f.With(Recovery(a)))
  {
    var g := f.With(Recovery(a));
    var more := refs[i := Reference(a, refs[i].paths + [Recovery(a)])];
    assert Recovery(a) !in refs[i].paths;
    forall l | g.Has(l) ensures exists k :: 0 <= k < |more| && more[k].account == l.account {
      if f.Has(l) {
        var k :| 0 <= k < |refs| && refs[k].account == l.account;
        assert more[k].account == l.account;
      } else {
        assert more[i].account == l.account;
      }
    }
  }

  lemma AddReference(refs: seq<Reference>, f: Files, a: Account)
    requires Covers(refs, f) && a !in f.recovery && f.main != Some(a)
    ensures Covers(refs + [Reference(a, [Recovery(a)])], f.With(Recovery(a)))
  {
    var g := f.With(Recovery(a));
    var more := refs + [Reference(a, [Recovery(a)])];
    forall l | g.Has(l) ensures exists k :: 0 <= k < |more| && more[k].account == l.account {
      if f.Has(l) {
        var k :| 0 <= k < |refs| && refs[k].account == l.account;
        assert more[k].account == l.account;
      } else {
        assert more[|refs|].account == l.account;
      }
    }
    forall k | 0 <= k < |refs| ensures refs[k].account != a {
      var l := refs[k].paths[0];
      assert l in refs[k].paths;
      assert f.Has(l) && l.account == refs[k].account;
      assert l == Main(l.account) || l == Recovery(l.account);
    }
  }

  // ---------------------------------------------------------------- the operations

  /** The operations themselves, each call updating disk or Keychain before the next. */
  class PrivateMaterial {
    var main: Option<Account>
    var recovery: set<Account>
    var sure: set<Locator>
    var possible: set<Locator>
    var items: map<Account, Contents>
    const replies: Script
    var next: nat

    ghost function View(): Disk
      reads this
    {
      Disk(Files(main, recovery), sure, possible, items)
    }

    constructor (d: Disk, replies: Script)
      ensures View() == d && this.replies == replies && next == 0
    {
      main, recovery := d.visible.main, d.visible.recovery;
      sure, possible, items := d.sure, d.possible, d.items;
      this.replies := replies;
      next := 0;
    }

    method CallReply() returns (r: Option<Reply>)
      modifies this`next
      ensures if old(next) < |replies| then r == Some(replies[old(next)]) && next == old(next) + 1
              else r == None && next == old(next)
    {
      if next < |replies| {
        r := Some(replies[next]);
        next := next + 1;
      } else {
        r := None;
      }
    }

    method SyncEntries()
      modifies this`sure, this`possible
      ensures View() == Synced(old(View()))
    {
      sure := Files(main, recovery).All();
      possible := sure;
    }

    method PublishLocator(l: Locator) returns (status: Status)
      modifies this`main, this`recovery, this`sure, this`possible, this`next
      ensures Run(View(), next, status) == Publish(old(View()), l, replies, old(next))
    {
      var r := CallReply();
      if r.None? { return Stopped; }
      if r.value.Bad? || PathTaken(Files(main, recovery), l) { return Failed(PublishFailed); }
      match l {
        case Main(a) => main := Some(a);
        case Recovery(a) => recovery := recovery + {a};
      }
      possible := possible + {l};
      if !r.value.Good? { return Failed(PublishFailed); }
      SyncEntries();
      status := Succeeded;
    }

    method UnlinkLocator(l: Locator) returns (status: Status)
      modifies this`main, this`recovery, this`sure, this`next
      ensures Run(View(), next, status) == Unlink(old(View()), l, replies, old(next))
    {
      var r := CallReply();
      if r.None? { return Stopped; }
      if r.value.Bad? { return Failed(RemoveFailed); }
      match l {
        case Main(a) => if main == Some(a) { main := None; }
        case Recovery(a) => recovery := recovery - {a};
      }
      sure := sure - {l};
      status := if r.value.Good? then Succeeded else Failed(RemoveFailed);
    }

    method SyncParent() returns (status: Status)
      modifies this`sure, this`possible, this`next
      ensures Run(View(), next, status) == Sync(old(View()), replies, old(next))
    {
      var r := CallReply();
      if r.None? { return Stopped; }
      if !r.value.Good? { return Failed(SyncFailed); }
      SyncEntries();
      status := Succeeded;
    }

    method CreateItem(a: Account, contents: Contents) returns (status: Status)
      modifies this`items, this`next
      ensures Run(View(), next, status) == Create(old(View()), a, contents, replies, old(next))
    {
      var r := CallReply();
      if r.None? { return Stopped; }
      if !r.value.Good? || a in items { return Failed(CreateFailed); }
      items := items[a := contents];
      status := Succeeded;
    }

    method DeleteItem(a: Account) returns (status: Status)
      modifies this`items, this`next
      ensures Run(View(), next, status) == Delete(old(View()), a, replies, old(next))
    {
      var r := CallReply();
      if r.None? { return Stopped; }
      if r.value.Bad? { return Failed(DeleteFailed); }
      items := items - {a};
      status := if r.value.Good? then Succeeded else Failed(DeleteFailed);
    }

    /** removeExpectedDarwinLocator and removeMatchingDarwinLocator. */
    method RemoveExpectedLocator(l: Locator, lenient: bool) returns (status: Status)
      modifies this`main, this`recovery, this`sure, this`possible, this`next
      ensures Run(View(), next, status) == RemoveLocator(old(View()), l, lenient, replies, old(next))
    {
      var read := CallReply();
      if read.None? { return Stopped; }
      var files := Files(main, recovery);
      if !PathTaken(files, l) { return Succeeded; }
      if !read.value.Good? { return if lenient then Succeeded else Failed(ReadFailed); }
      if !files.Has(l) { return if lenient then Succeeded else Failed(LocatorChanged); }
      status := UnlinkLocator(l);
      if status.Succeeded? { status := SyncParent(); }
    }

    method PersistPrivateMaterial(a: Account, contents: Contents) returns (status: Status)
      requires next == 0
      modifies this
      ensures Run(View(), next, status) == Persist(old(View()), a, contents, replies)
    {
      if contents == [] { return Failed(EmptyMaterial); }
      var read := CallReply();
      if read.None? { return Stopped; }
      if main.Some? { return Failed(AlreadyExists); }
      if !read.value.Good? { return Failed(ReadFailed); }
      if recovery != {} { return Failed(RecoveryPending); }
      var recorded := PublishLocator(Recovery(a));
      if recorded.Stopped? { return Stopped; }
      if recorded.Failed? {
        var cleanup := RemoveExpectedLocator(Recovery(a), true);
        return if cleanup.Stopped? then Stopped else Failed(PublishFailed);
      }
      var created := CreateItem(a, contents);
      if created.Stopped? { return Stopped; }
      if created.Failed? {
        var cleanup := RemoveExpectedLocator(Recovery(a), false);
        return if cleanup.Stopped? then Stopped else Failed(CreateFailed);
      }
      var published := PublishLocator(Main(a));
      if published.Stopped? { return Stopped; }
      if published.Failed? {
        status := RollBackPublication(a);
        return;
      }
      status := RemoveExpectedLocator(Recovery(a), false);
    }

    method RollBackPublication(a: Account) returns (status: Status)
      requires next == 4
      modifies this
      ensures Run(View(), next, status) == RollBack(old(View()), a, replies)
    {
      var deleted := DeleteItem(a);
      if deleted.Stopped? { return Stopped; }
      if deleted.Failed? { return Failed(PublishFailed); }
      var unpublished := RemoveExpectedLocator(Main(a), true);
      if unpublished.Stopped? { return Stopped; }
      if unpublished.Failed? { return Failed(PublishFailed); }
      var cleaned := RemoveExpectedLocator(Recovery(a), false);
      status := if cleaned.Stopped? then Stopped else Failed(PublishFailed);
    }

    method LoadPrivateMaterial() returns (r: Result<Contents, Status>)
      requires next == 0
      modifies this`next
      ensures r == Load(View(), replies)
    {
      var read := CallReply();
      if read.None? { return Err(Stopped); }
      if main.None? {
        if !read.value.Good? { return Err(Failed(ReadFailed)); }
        return Err(if recovery != {} then Failed(RecoveryPending) else Failed(NotFound));
      }
      if !read.value.Good? { return Err(Failed(ReadFailed)); }
      var item := CallReply();
      if item.None? { return Err(Stopped); }
      if !item.value.Good? || main.value !in items || items[main.value] == [] { return Err(Failed(ReadFailed)); }
      r := Ok(items[main.value]);
    }

    /** Builds the map from account to files, one recovery file at a time, then lists it. */
    method CollectReferences() returns (refs: seq<Reference>)
      ensures Covers(refs, Files(main, recovery))
    {
      refs := if main.Some? then [Reference(main.value, [Main(main.value)])] else [];
      var pending := recovery;
      assert recovery - pending == {};
      assert main.Some? ==> refs[0].account == main.value;
      while pending != {}
        invariant pending <= recovery
        invariant Covers(refs, Files(main, recovery - pending))
        decreases |pending|
      {
        var a :| a in pending;
        ghost var files := Files(main, recovery - pending);
        assert files.With(Recovery(a)) == Files(main, recovery - (pending - {a}));
        if main == Some(a) {
          assert files.Has(Main(a));
          var i: nat :| i < |refs| && refs[i].account == a;
          AddToReference(refs, files, a, i);
          refs := refs[i := Reference(a, refs[i].paths + [Recovery(a)])];
        } else {
          AddReference(refs, files, a);
          refs := refs + [Reference(a, [Recovery(a)])];
        }
        pending := pending - {a};
      }
      assert recovery - pending == recovery;
    }

    method UnlinkPaths(paths: seq<Locator>, wasOk: bool, wasRemoved: bool) returns (stopped: bool, ok: bool, removed: bool)
      modifies this`main, this`recovery, this`sure, this`next
      ensures Pass(View(), next, stopped, ok, removed) ==
        UnlinkAll(Pass(old(View()), old(next), false, wasOk, wasRemoved), paths, replies)
    {
      stopped, ok, removed := false, wasOk, wasRemoved;
      var i := 0;
      while i < |paths| && !stopped
        invariant 0 <= i <= |paths|
        invariant UnlinkAll(Pass(old(View()), old(next), false, wasOk, wasRemoved), paths, replies) ==
          UnlinkAll(Pass(View(), next, stopped, ok, removed), paths[i..], replies)
      {
        var status := UnlinkLocator(paths[i]);
        stopped := status.Stopped?;
        if status.Succeeded? { removed := true; } else { ok := false; }
        assert paths[i..][1..] == paths[i + 1..];
        i := i + 1;
      }
    }

    method RemovePrivateMaterial() returns (status: Status, refs: seq<Reference>)
      requires next == 0
      modifies this
      ensures Covers(refs, old(View()).visible)
      ensures Run(View(), next, status) == Remove(old(View()), refs, replies)
    {
      refs := CollectReferences();
      var read := CallReply();
      if read.None? { return Stopped, refs; }
      if !read.value.Good? { return Failed(ReadFailed), refs; }
      var stopped, ok, removed := false, true, false;
      var i := 0;
      while i < |refs| && !stopped
        invariant 0 <= i <= |refs|
        invariant RemoveReferences(Pass(old(View()), 1, false, true, false), refs, replies) ==
          RemoveReferences(Pass(View(), next, stopped, ok, removed), refs[i..], replies)
      {
        assert refs[i..][1..] == refs[i + 1..];
        var deleted := DeleteItem(refs[i].account);
        if deleted.Succeeded? {
          stopped, ok, removed := UnlinkPaths(refs[i].paths, ok, removed);
        } else {
          stopped, ok := deleted.Stopped?, false;
        }
        i := i + 1;
      }
      if stopped {
        StoppedStays(Pass(View(), next, stopped, ok, removed), refs[i..], replies);
        return Stopped, refs;
      }
      if !removed {
        return if ok then Succeeded else Failed(RemoveFailed), refs;
      }
      status := SyncParent();
      if status.Succeeded? && !ok { status := Failed(RemoveFailed); }
    }
  }

  lemma {:induction false} StoppedStays(p: Pass, refs: seq<Reference>, s: Script)
    requires p.stopped
    ensures RemoveReferences(p, refs, s) == p
    decreases |refs|
  {
    if refs != [] { StoppedStays(p, refs[1..], s); }
  }
}
