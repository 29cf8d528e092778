/** Validation of the management configuration and its canonical form
    (internal/config/config.go). Trimming, lower-casing, case-folded comparison and the
    profile's own rules are left to the text rules. */
module Configurations {
  import opened Common
  import opened Order

  const SCHEMA_VERSION := 1
  const SLASH: Byte := 47

  datatype ScopeKind = Organization | Repository | OtherKind

  datatype Node = Node(id: Text, displayName: Text, maxRunners: int)

  /** `policy` stands for the fields only the profile's own rules look at. */
  datatype Profile = Profile(id: Text, profileLabel: Text, policy: Text)

  datatype Target = Target(
    id: Text, installationID: Text, scopeKind: ScopeKind, scope: Text, scaleSetName: Text, runnerProfileID: Text)

  datatype Configuration = Configuration(
    schemaVersion: int, revision: nat, maxRunners: Option<int>,
    nodes: seq<Node>, profiles: seq<Profile>, targets: seq<Target>)

  datatype TextRules = TextRules(
    trim: Text -> Text, lower: Text -> Text, equalFold: (Text, Text) -> bool, validProfile: Profile -> bool)

  function NodeID(n: Node): Text { n.id }

  function ProfileID(p: Profile): Text { p.id }

  function TargetID(t: Target): Text { t.id }

  datatype Code =
    | UnsupportedSchemaVersion | InvalidMaxRunners | Required | DuplicateNodeID
    | DuplicateProfileID | DuplicateProfileLabel | InvalidProfile
    | DuplicateTargetID | UnknownProfile | ScaleSetProfileMismatch
    | InvalidOrganizationScope | InvalidRepositoryScope | InvalidScopeKind | OverlappingRouting

  datatype Field =
    | SchemaVersionField | SchedulerField
    | NodeField(i: nat, name: string) | ProfileField(i: nat, name: string) | TargetField(i: nat, name: string)

  datatype Problem = Problem(code: Code, field: Field)

  predicate CanonicalIdentifier(r: TextRules, v: Text) {
    v != [] && r.trim(v) == v
  }

  // -------------------------------------------------------------------- scopes

  /** What routing compares: the normalized scope and its owner. */
  datatype Route = Route(kind: ScopeKind, scope: Text, owner: Text)

  datatype ScopeError = ScopeError(code: Code, name: string)

  function Split(raw: Text): (parts: seq<Text>)
    ensures |parts| >= 1
  {
    if raw == [] then [[]]
    else
      var rest := Split(raw[1..]);
      if raw[0] == SLASH then [[]] + rest else [[raw[0]] + rest[0]] + rest[1..]
  }

  function ValidatedScope(r: TextRules, kind: ScopeKind, raw: Text): Result<Route, ScopeError> {
    if !CanonicalIdentifier(r, raw) then Err(ScopeError(Required, "scope"))
    else
      match kind
      case Organization =>
        if SLASH in raw then Err(ScopeError(InvalidOrganizationScope, "scope"))
        else Ok(Route(kind, r.lower(raw), r.lower(raw)))
      case Repository =>
        var parts := Split(raw);
        if |parts| != 2 || !CanonicalIdentifier(r, parts[0]) || !CanonicalIdentifier(r, parts[1])
        then Err(ScopeError(InvalidRepositoryScope, "scope"))
        else Ok(Route(kind, r.lower(parts[0]) + [SLASH] + r.lower(parts[1]), r.lower(parts[0])))
      case OtherKind => Err(ScopeError(InvalidScopeKind, "scopeKind"))
  }

  /** Two routes overlap when they name the same scope, or one is an organization that
      owns the other's repository. */
  predicate Overlap(a: Route, b: Route) {
    if a.kind == b.kind then a.scope == b.scope
    else if a.kind.Organization? then a.scope == b.owner
    else a.owner == b.scope
  }

  // ----------------------------------------------------- what makes it acceptable

  predicate NodeOk(r: TextRules, n: Node) {
    CanonicalIdentifier(r, n.id) && r.trim(n.displayName) != [] && n.maxRunners >= 1
  }

  predicate ProfileOk(r: TextRules, p: Profile) {
    CanonicalIdentifier(r, p.id) && CanonicalIdentifier(r, p.profileLabel) && r.validProfile(p)
  }

  predicate TargetOk(r: TextRules, profiles: seq<Profile>, t: Target) {
    && CanonicalIdentifier(r, t.id) && CanonicalIdentifier(r, t.installationID)
    && CanonicalIdentifier(r, t.scaleSetName) && CanonicalIdentifier(r, t.runnerProfileID)
    && (exists p :: p in profiles && p.id == t.runnerProfileID && r.equalFold(t.scaleSetName, p.profileLabel))
    && ValidatedScope(r, t.scopeKind, t.scope).Ok?
  }

  /** Targets whose profiles share a normalized label must not overlap. */
  predicate Clash(r: TextRules, profiles: seq<Profile>, x: Target, y: Target) {
    && ValidatedScope(r, x.scopeKind, x.scope).Ok? && ValidatedScope(r, y.scopeKind, y.scope).Ok?
    && Overlap(ValidatedScope(r, x.scopeKind, x.scope).value, ValidatedScope(r, y.scopeKind, y.scope).value)
    && exists p, q :: p in profiles && q in profiles && p.id == x.runnerProfileID && q.id == y.runnerProfileID &&
         r.lower(p.profileLabel) == r.lower(q.profileLabel)
  }

  /** The whole condition, without any order: every item is fine by itself, identifiers
      and labels are unique, and no two targets clash. */
  ghost predicate Acceptable(r: TextRules, c: Configuration) {
    && c.schemaVersion == SCHEMA_VERSION && (c.maxRunners.Some? ==> c.maxRunners.value >= 1)
    && (forall n :: n in c.nodes ==> NodeOk(r, n)) && DistinctBy(c.nodes, NodeID)
    && (forall p :: p in c.profiles ==> ProfileOk(r, p)) && DistinctBy(c.profiles, ProfileID)
    && DistinctBy(c.profiles, LabelKey(r))
    && (forall t :: t in c.targets ==> TargetOk(r, c.profiles, t)) && DistinctBy(c.targets, TargetID)
    && (forall i, j :: 0 <= i < j < |c.targets| ==> !Clash(r, c.profiles, c.targets[i], c.targets[j]))
  }

  function LabelKey(r: TextRules): Profile -> Text {
    (p: Profile) => r.lower(p.profileLabel)
  }

  // ----------------------------------------------------------- what a scope means

  /** The parts hold no slash and, joined by slashes, give the text back. */
  function Joined(parts: seq<Text>): Text
    requires parts != []
  {
    if |parts| == 1 then parts[0] else parts[0] + [SLASH] + Joined(parts[1..])
  }

  lemma {:induction false} SplitJoins(raw: Text)
    ensures Joined(Split(raw)) == raw && forall p :: p in Split(raw) ==> SLASH !in p
  {
    if raw != [] {
      SplitJoins(raw[1..]);
      var rest := Split(raw[1..]);
      assert raw == [raw[0]] + raw[1..];
      assert rest == [rest[0]] + rest[1..];
      if raw[0] == SLASH {
        assert ([[]] + rest)[1..] == rest;
        assert [] + [SLASH] + raw[1..] == raw;
      } else {
        var parts := [[raw[0]] + rest[0]] + rest[1..];
        assert parts[1..] == rest[1..];
        if |rest| > 1 {
          assert [raw[0]] + (rest[0] + [SLASH] + Joined(rest[1..])) == ([raw[0]] + rest[0]) + [SLASH] + Joined(rest[1..]);
        }
      }
    }
  }

  /** There is one way to cut a text at its only slash. */
  lemma {:induction false} SplitAtOnlySlash(owner: Text, name: Text)
    requires SLASH !in owner && SLASH !in name
    ensures Split(owner + [SLASH] + name) == [owner, name]
  {
    var raw := owner + [SLASH] + name;
    if owner == [] {
      assert raw[1..] == name;
      SplitWithoutSlash(name);
      assert [[]] + [name] == [owner, name];
    } else {
      SplitAtOnlySlash(owner[1..], name);
      assert raw[1..] == owner[1..] + [SLASH] + name;
      assert raw[0] == owner[0] && [owner[0]] + owner[1..] == owner;
    }
  }

  lemma {:induction false} SplitWithoutSlash(raw: Text)
    requires SLASH !in raw
    ensures Split(raw) == [raw]
  {
    if raw != [] {
      SplitWithoutSlash(raw[1..]);
      assert [raw[0]] + raw[1..] == raw && [raw[1..]][1..] == [];
    }
  }

  /** An organization is a canonical text without a slash. */
  lemma OrganizationScope(r: TextRules, raw: Text)
    ensures var s := ValidatedScope(r, Organization, raw);
      && (s.Ok? <==> raw != [] && r.trim(raw) == raw && SLASH !in raw)
      && (s.Ok? ==> s.value == Route(Organization, r.lower(raw), r.lower(raw)))
      && (s.Err? ==> s.error == ScopeError(if raw != [] && r.trim(raw) == raw then InvalidOrganizationScope else Required, "scope"))
    ensures var s := ValidatedScope(r, OtherKind, raw);
      s == Err(if raw != [] && r.trim(raw) == raw then ScopeError(InvalidScopeKind, "scopeKind") else ScopeError(Required, "scope"))
  {
  }

  /** A repository is a canonical owner and a canonical name, neither with a slash, around
      one slash. */
  lemma RepositoryScope(r: TextRules, raw: Text, owner: Text, name: Text)
    ensures var s := ValidatedScope(r, Repository, raw);
      && (s.Ok? ==> raw != [] && r.trim(raw) == raw && exists o, n ::
            && raw == o + [SLASH] + n && SLASH !in o && SLASH !in n
            && o != [] && r.trim(o) == o && n != [] && r.trim(n) == n)
      && (SLASH !in owner && SLASH !in name && raw == owner + [SLASH] + name && r.trim(raw) == raw ==>
            && (s.Ok? <==> owner != [] && r.trim(owner) == owner && name != [] && r.trim(name) == name)
            && (s.Ok? ==> s.value == Route(Repository, r.lower(owner) + [SLASH] + r.lower(name), r.lower(owner))))
      && (s.Err? ==> s.error == ScopeError(if raw != [] && r.trim(raw) == raw then InvalidRepositoryScope else Required, "scope"))
  {
    SplitJoins(raw);
    if SLASH !in owner && SLASH !in name && raw == owner + [SLASH] + name { SplitAtOnlySlash(owner, name); }
    if ValidatedScope(r, Repository, raw).Ok? {
      var parts := Split(raw);
      assert raw == parts[0] + [SLASH] + parts[1];
    }
    hide Split;
  }

  /** The repositories a route takes jobs from: one, or all of an owner. */
  predicate Serves(route: Route, owner: Text, name: Text) {
    if route.kind.Organization? then route.scope == owner
    else route.owner == owner && route.scope == owner + [SLASH] + name
  }

  /** Two accepted scopes overlap exactly when some repository belongs to both. */
  lemma OverlapIsSharedRepository(r: TextRules, x: Target, y: Target)
    requires forall v :: SLASH !in v ==> SLASH !in r.lower(v)
    requires ValidatedScope(r, x.scopeKind, x.scope).Ok? && ValidatedScope(r, y.scopeKind, y.scope).Ok?
    ensures var a, b := ValidatedScope(r, x.scopeKind, x.scope).value, ValidatedScope(r, y.scopeKind, y.scope).value;
      Overlap(a, b) <==> exists owner, name :: Serves(a, owner, name) && Serves(b, owner, name)
  {
    var a, b := ValidatedScope(r, x.scopeKind, x.scope).value, ValidatedScope(r, y.scopeKind, y.scope).value;
    var an := RouteParts(r, x);
    var bn := RouteParts(r, y);
    hide ValidatedScope;
    if Overlap(a, b) {
      if a.kind.Repository? && b.kind.Repository? { SameCut(a.owner, an, b.owner, bn); }
      var owner := a.owner;
      var name := if a.kind.Repository? then an else bn;
      assert Serves(a, owner, name) && Serves(b, owner, name);
    }
  }

  lemma RouteParts(r: TextRules, x: Target) returns (name: Text)
    requires forall v :: SLASH !in v ==> SLASH !in r.lower(v)
    requires ValidatedScope(r, x.scopeKind, x.scope).Ok?
    ensures var a := ValidatedScope(r, x.scopeKind, x.scope).value;
      && a.kind == x.scopeKind && SLASH !in a.owner && SLASH !in name
      && (a.kind.Organization? ==> a.scope == a.owner)
      && (a.kind.Repository? ==> a.scope == a.owner + [SLASH] + name)
      && (a.kind.Organization? || a.kind.Repository?)
  {
    name := [];
    if x.scopeKind.Repository? {
      SplitJoins(x.scope);
      name := r.lower(Split(x.scope)[1]);
    }
    hide Split;
  }

  lemma {:induction false} SameCut(o: Text, n: Text, p: Text, m: Text)
    requires SLASH !in o && SLASH !in n && SLASH !in p && SLASH !in m && o + [SLASH] + n == p + [SLASH] + m
    ensures o == p && n == m
  {
    SplitAtOnlySlash(o, n);
    SplitAtOnlySlash(p, m);
  }

  // ------------------------------------------------------------- the first problem

  function NodeProblem(r: TextRules, nodes: seq<Node>, i: nat): Option<Problem>
    requires i < |nodes|
  {
    var n := nodes[i];
    if !CanonicalIdentifier(r, n.id) then Some(Problem(Required, NodeField(i, "id")))
    else if r.trim(n.displayName) == [] then Some(Problem(Required, NodeField(i, "displayName")))
    else if n.maxRunners < 1 then Some(Problem(InvalidMaxRunners, NodeField(i, "maxRunners")))
    else if exists j :: 0 <= j < i && nodes[j].id == n.id then Some(Problem(DuplicateNodeID, NodeField(i, "id")))
    else None
  }

  function ProfileProblem(r: TextRules, profiles: seq<Profile>, i: nat): Option<Problem>
    requires i < |profiles|
  {
    var p := profiles[i];
    if !CanonicalIdentifier(r, p.id) then Some(Problem(Required, ProfileField(i, "id")))
    else if !CanonicalIdentifier(r, p.profileLabel) then Some(Problem(Required, ProfileField(i, "label")))
    else if exists j :: 0 <= j < i && profiles[j].id == p.id then Some(Problem(DuplicateProfileID, ProfileField(i, "id")))
    else if exists j :: 0 <= j < i && r.lower(profiles[j].profileLabel) == r.lower(p.profileLabel) then
      Some(Problem(DuplicateProfileLabel, ProfileField(i, "label")))
    else if !r.validProfile(p) then Some(Problem(InvalidProfile, ProfileField(i, "")))
    else None
  }

  function FindProfile(profiles: seq<Profile>, id: Text): Option<Profile> {
    if profiles == [] then None
    else if profiles[0].id == id then Some(profiles[0])
    else FindProfile(profiles[1..], id)
  }

  /** What is wrong with a target before its routing is compared with others. */
  function OwnTargetProblem(r: TextRules, profiles: seq<Profile>, targets: seq<Target>, i: nat): Option<Problem>
    requires i < |targets|
  {
    var t := targets[i];
    if !CanonicalIdentifier(r, t.id) then Some(Problem(Required, TargetField(i, "id")))
    else if exists j :: 0 <= j < i && targets[j].id == t.id then Some(Problem(DuplicateTargetID, TargetField(i, "id")))
    else if !CanonicalIdentifier(r, t.installationID) then Some(Problem(Required, TargetField(i, "installationId")))
    else if !CanonicalIdentifier(r, t.scaleSetName) then Some(Problem(Required, TargetField(i, "scaleSetName")))
    else if !CanonicalIdentifier(r, t.runnerProfileID) then Some(Problem(Required, TargetField(i, "runnerProfileId")))
    else
      match FindProfile(profiles, t.runnerProfileID)
      case None => Some(Problem(UnknownProfile, TargetField(i, "runnerProfileId")))
      case Some(p) =>
        if !r.equalFold(t.scaleSetName, p.profileLabel) then
          Some(Problem(ScaleSetProfileMismatch, TargetField(i, "scaleSetName")))
        else
          match ValidatedScope(r, t.scopeKind, t.scope)
          case Err(e) => Some(Problem(e.code, TargetField(i, e.name)))
          case Ok(_) => None
  }

  predicate ClashesBefore(r: TextRules, profiles: seq<Profile>, targets: seq<Target>, i: nat)
    requires i < |targets|
  {
    exists j :: 0 <= j < i && Clash(r, profiles, targets[j], targets[i])
  }

  function TargetProblem(r: TextRules, profiles: seq<Profile>, targets: seq<Target>, i: nat): Option<Problem>
    requires i < |targets|
  {
    var own := OwnTargetProblem(r, profiles, targets, i);
    if own.Some? then own
    else if ClashesBefore(r, profiles, targets, i) then
      Some(Problem(OverlappingRouting, TargetField(i, "scope")))
    else None
  }

  function FirstNodeProblem(r: TextRules, nodes: seq<Node>, i: nat): Option<Problem>
    requires i <= |nodes|
    decreases |nodes| - i
  {
    if i == |nodes| then None
    else if NodeProblem(r, nodes, i).Some? then NodeProblem(r, nodes, i)
    else FirstNodeProblem(r, nodes, i + 1)
  }

  function FirstProfileProblem(r: TextRules, profiles: seq<Profile>, i: nat): Option<Problem>
    requires i <= |profiles|
    decreases |profiles| - i
  {
    if i == |profiles| then None
    else if ProfileProblem(r, profiles, i).Some? then ProfileProblem(r, profiles, i)
    else FirstProfileProblem(r, profiles, i + 1)
  }

  function FirstTargetProblem(r: TextRules, profiles: seq<Profile>, targets: seq<Target>, i: nat): Option<Problem>
    requires i <= |targets|
    decreases |targets| - i
  {
    if i == |targets| then None
    else if TargetProblem(r, profiles, targets, i).Some? then TargetProblem(r, profiles, targets, i)
    else FirstTargetProblem(r, profiles, targets, i + 1)
  }

  /** The problem reported: schema, scheduler, nodes, profiles, targets, each in order. */
  function FirstProblem(r: TextRules, c: Configuration): Option<Problem> {
    if c.schemaVersion != SCHEMA_VERSION then Some(Problem(UnsupportedSchemaVersion, SchemaVersionField))
    else if c.maxRunners.Some? && c.maxRunners.value < 1 then Some(Problem(InvalidMaxRunners, SchedulerField))
    else if FirstNodeProblem(r, c.nodes, 0).Some? then FirstNodeProblem(r, c.nodes, 0)
    else if FirstProfileProblem(r, c.profiles, 0).Some? then FirstProfileProblem(r, c.profiles, 0)
    else FirstTargetProblem(r, c.profiles, c.targets, 0)
  }

  /** The problem of an item names its first fault: the texts that are missing or not
      canonical, then what it repeats or breaks. */
  lemma ItemProblemsTell(r: TextRules, nodes: seq<Node>, profiles: seq<Profile>, i: nat)
    ensures i < |nodes| ==>
      var n := nodes[i];
      var p := NodeProblem(r, nodes, i);
      var named := n.id != [] && r.trim(n.id) == n.id;
      && (p == Some(Problem(Required, NodeField(i, "id"))) <==> !named)
      && (p == Some(Problem(Required, NodeField(i, "displayName"))) <==> named && r.trim(n.displayName) == [])
      && (p == Some(Problem(InvalidMaxRunners, NodeField(i, "maxRunners"))) <==> named && r.trim(n.displayName) != [] && n.maxRunners < 1)
      && (p == Some(Problem(DuplicateNodeID, NodeField(i, "id"))) <==>
            named && r.trim(n.displayName) != [] && n.maxRunners >= 1 && exists j :: 0 <= j < i && nodes[j].id == n.id)
    ensures i < |profiles| ==>
      var q := profiles[i];
      var p := ProfileProblem(r, profiles, i);
      var named := q.id != [] && r.trim(q.id) == q.id;
      var labelled := q.profileLabel != [] && r.trim(q.profileLabel) == q.profileLabel;
      var isNew := forall j :: 0 <= j < i ==> profiles[j].id != q.id;
      var newLabel := forall j :: 0 <= j < i ==> r.lower(profiles[j].profileLabel) != r.lower(q.profileLabel);
      && (p == Some(Problem(Required, ProfileField(i, "id"))) <==> !named)
      && (p == Some(Problem(Required, ProfileField(i, "label"))) <==> named && !labelled)
      && (p == Some(Problem(DuplicateProfileID, ProfileField(i, "id"))) <==> named && labelled && !isNew)
      && (p == Some(Problem(DuplicateProfileLabel, ProfileField(i, "label"))) <==> named && labelled && isNew && !newLabel)
      && (p == Some(Problem(InvalidProfile, ProfileField(i, ""))) <==> named && labelled && isNew && newLabel && !r.validProfile(q))
  {
  }

  /** A target's problem in terms of the target itself, its profile, and earlier targets. */
  lemma TargetProblemTells(r: TextRules, profiles: seq<Profile>, targets: seq<Target>, i: nat)
    requires i < |targets| && DistinctBy(profiles, ProfileID)
    ensures var t := targets[i];
      var p := TargetProblem(r, profiles, targets, i);
      && p.Some? ==>
        var code := p.value.code;
        && (code == DuplicateTargetID ==> exists j :: 0 <= j < i && targets[j].id == t.id)
        && (code == UnknownProfile ==> forall q :: q in profiles ==> q.id != t.runnerProfileID)
        && (code == ScaleSetProfileMismatch ==>
              exists q :: q in profiles && q.id == t.runnerProfileID && !r.equalFold(t.scaleSetName, q.profileLabel))
        && (code in {InvalidOrganizationScope, InvalidRepositoryScope, InvalidScopeKind} ==>
              ValidatedScope(r, t.scopeKind, t.scope).Err? && ValidatedScope(r, t.scopeKind, t.scope).error.code == code)
        && (code == OverlappingRouting ==>
              TargetOk(r, profiles, t) && exists j :: 0 <= j < i && Clash(r, profiles, targets[j], t))
        && (code == Required ==>
              || !CanonicalIdentifier(r, t.id) || !CanonicalIdentifier(r, t.installationID) || !CanonicalIdentifier(r, t.scaleSetName)
              || !CanonicalIdentifier(r, t.runnerProfileID) || !CanonicalIdentifier(r, t.scope))
        && code in {Required, DuplicateTargetID, UnknownProfile, ScaleSetProfileMismatch, InvalidOrganizationScope,
             InvalidRepositoryScope, InvalidScopeKind, OverlappingRouting}
  {
    FindsTheProfile(profiles, targets[i].runnerProfileID);
    OrganizationScope(r, targets[i].scope);
    RepositoryScope(r, targets[i].scope, [], []);
    TargetProblemMeaning(r, profiles, targets, i);
    hide Clash, Split;
  }

  predicate BadSchema(c: Configuration) {
    c.schemaVersion != 1
  }

  predicate BadScheduler(c: Configuration) {
    c.maxRunners.Some? && c.maxRunners.value < 1
  }

  /** The problem reported is that of the first part, and in it of the first item, that has
      one. */
  lemma FirstProblemIsFirst(r: TextRules, c: Configuration)
    ensures var p := FirstProblem(r, c);
      && (BadSchema(c) ==> p == Some(Problem(UnsupportedSchemaVersion, SchemaVersionField)))
      && (!BadSchema(c) && BadScheduler(c) ==> p == Some(Problem(InvalidMaxRunners, SchedulerField)))
      && (p.Some? && !BadSchema(c) && !BadScheduler(c) ==>
            || (exists i: nat :: i < |c.nodes| && NodeProblem(r, c.nodes, i) == p && NodesFineBefore(r, c, i))
            || (exists i: nat :: i < |c.profiles| && ProfileProblem(r, c.profiles, i) == p &&
                  NodesFineBefore(r, c, |c.nodes|) && ProfilesFineBefore(r, c, i))
            || (exists i: nat :: i < |c.targets| && TargetProblem(r, c.profiles, c.targets, i) == p &&
                  NodesFineBefore(r, c, |c.nodes|) && ProfilesFineBefore(r, c, |c.profiles|) && TargetsFineBefore(r, c, i)))
  {
    if !BadSchema(c) && !BadScheduler(c) {
      NoNodeProblem(r, c.nodes, 0);
      NoProfileProblem(r, c.profiles, 0);
      hide NodeProblem, ProfileProblem, TargetProblem;
      if FirstNodeProblem(r, c.nodes, 0).Some? {
        var i := FirstNode(r, c, 0);
      } else if FirstProfileProblem(r, c.profiles, 0).Some? {
        var i := FirstProfile(r, c, 0);
      } else if FirstTargetProblem(r, c.profiles, c.targets, 0).Some? {
        var i := FirstTarget(r, c, 0);
      }
    }
  }

  predicate NodesFineBefore(r: TextRules, c: Configuration, i: nat)
    requires i <= |c.nodes|
  {
    forall k: nat :: k < i ==> NodeProblem(r, c.nodes, k).None?
  }

  predicate ProfilesFineBefore(r: TextRules, c: Configuration, i: nat)
    requires i <= |c.profiles|
  {
    forall k: nat :: k < i ==> ProfileProblem(r, c.profiles, k).None?
  }

  predicate TargetsFineBefore(r: TextRules, c: Configuration, i: nat)
    requires i <= |c.targets|
  {
    forall k: nat :: k < i ==> TargetProblem(r, c.profiles, c.targets, k).None?
  }

  lemma {:induction false} FirstNode(r: TextRules, c: Configuration, from: nat) returns (i: nat)
    requires from <= |c.nodes| && NodesFineBefore(r, c, from) && FirstNodeProblem(r, c.nodes, from).Some?
    ensures i < |c.nodes| && NodeProblem(r, c.nodes, i) == FirstNodeProblem(r, c.nodes, from) && NodesFineBefore(r, c, i)
    decreases |c.nodes| - from
  {
    hide NodeProblem;
    i := from;
    if NodeProblem(r, c.nodes, from).None? { i := FirstNode(r, c, from + 1); }
  }

  lemma {:induction false} FirstProfile(r: TextRules, c: Configuration, from: nat) returns (i: nat)
    requires from <= |c.profiles| && ProfilesFineBefore(r, c, from) && FirstProfileProblem(r, c.profiles, from).Some?
    ensures i < |c.profiles| && ProfileProblem(r, c.profiles, i) == FirstProfileProblem(r, c.profiles, from) && ProfilesFineBefore(r, c, i)
    decreases |c.profiles| - from
  {
    hide ProfileProblem;
    i := from;
    if ProfileProblem(r, c.profiles, from).None? { i := FirstProfile(r, c, from + 1); }
  }

  lemma {:induction false} FirstTarget(r: TextRules, c: Configuration, from: nat) returns (i: nat)
    requires from <= |c.targets| && TargetsFineBefore(r, c, from) && FirstTargetProblem(r, c.profiles, c.targets, from).Some?
    ensures i < |c.targets| && TargetProblem(r, c.profiles, c.targets, i) == FirstTargetProblem(r, c.profiles, c.targets, from)
    ensures TargetsFineBefore(r, c, i)
    decreases |c.targets| - from
  {
    hide TargetProblem;
    i := from;
    if TargetProblem(r, c.profiles, c.targets, from).None? { i := FirstTarget(r, c, from + 1); }
  }

  lemma {:induction false} NoNodeProblem(r: TextRules, nodes: seq<Node>, i: nat)
    requires i <= |nodes|
    ensures FirstNodeProblem(r, nodes, i).None? <==> forall k :: i <= k < |nodes| ==> NodeProblem(r, nodes, k).None?
    decreases |nodes| - i
  {
    if i < |nodes| { NoNodeProblem(r, nodes, i + 1); }
  }

  lemma {:induction false} NoProfileProblem(r: TextRules, profiles: seq<Profile>, i: nat)
    requires i <= |profiles|
    ensures FirstProfileProblem(r, profiles, i).None? <==> forall k :: i <= k < |profiles| ==> ProfileProblem(r, profiles, k).None?
    decreases |profiles| - i
  {
    if i < |profiles| { NoProfileProblem(r, profiles, i + 1); }
  }

  lemma {:induction false} NoTargetProblem(r: TextRules, profiles: seq<Profile>, targets: seq<Target>, i: nat)
    requires i <= |targets|
    ensures FirstTargetProblem(r, profiles, targets, i).None? <==>
      forall k :: i <= k < |targets| ==> TargetProblem(r, profiles, targets, k).None?
    decreases |targets| - i
  {
    if i < |targets| { NoTargetProblem(r, profiles, targets, i + 1); }
  }

  lemma {:induction false} FindsTheProfile(profiles: seq<Profile>, id: Text)
    requires DistinctBy(profiles, ProfileID)
    ensures match FindProfile(profiles, id)
      case Some(p) => p in profiles && p.id == id && forall q :: q in profiles && q.id == id ==> q == p
      case None => forall q :: q in profiles ==> q.id != id
  {
    if profiles != [] {
      FindsTheProfile(profiles[1..], id);
      assert profiles == [profiles[0]] + profiles[1..];
      forall q | q in profiles && profiles[0].id == id && q.id == id ensures q == profiles[0] {
        var k: nat :| k < |profiles| && profiles[k] == q;
        assert ProfileID(profiles[0]) == ProfileID(profiles[k]);
      }
    }
  }

  /** A target without a problem is one that is fine by itself, has a new identifier, and
      clashes with no earlier target. */
  lemma TargetProblemMeaning(r: TextRules, profiles: seq<Profile>, targets: seq<Target>, i: nat)
    requires i < |targets| && DistinctBy(profiles, ProfileID)
    ensures TargetProblem(r, profiles, targets, i).None? <==>
      && TargetOk(r, profiles, targets[i])
      && (forall j :: 0 <= j < i ==> targets[j].id != targets[i].id)
      && (forall j :: 0 <= j < i ==> !Clash(r, profiles, targets[j], targets[i]))
  {
    FindsTheProfile(profiles, targets[i].runnerProfileID);
    hide ValidatedScope, Clash;
  }

  /** No problem is reported exactly for the acceptable configurations. */
  lemma AcceptsExactlyTheAcceptable(r: TextRules, c: Configuration)
    ensures FirstProblem(r, c).None? <==> Acceptable(r, c)
  {
    NoNodeProblem(r, c.nodes, 0);
    NoProfileProblem(r, c.profiles, 0);
    NoTargetProblem(r, c.profiles, c.targets, 0);
    NodesAcceptable(r, c.nodes);
    ProfilesAcceptable(r, c.profiles);
    if DistinctBy(c.profiles, ProfileID) {
      TargetsAcceptable(r, c.profiles, c.targets);
    }
    hide NodeProblem, ProfileProblem, TargetProblem, FirstNodeProblem, FirstProfileProblem, FirstTargetProblem, NodeOk, ProfileOk, TargetOk, Clash;
  }

  lemma NodesAcceptable(r: TextRules, nodes: seq<Node>)
    ensures (forall k :: 0 <= k < |nodes| ==> NodeProblem(r, nodes, k).None?) <==>
      (forall n :: n in nodes ==> NodeOk(r, n)) && DistinctBy(nodes, NodeID)
  {
    forall k | 0 <= k < |nodes|
      ensures NodeProblem(r, nodes, k).None? <==> NodeOk(r, nodes[k]) && forall j :: 0 <= j < k ==> nodes[j].id != nodes[k].id
    {
    }
    hide NodeProblem, NodeOk;
  }

  lemma ProfilesAcceptable(r: TextRules, profiles: seq<Profile>)
    ensures (forall k :: 0 <= k < |profiles| ==> ProfileProblem(r, profiles, k).None?) <==>
      (forall p :: p in profiles ==> ProfileOk(r, p)) && DistinctBy(profiles, ProfileID) && DistinctBy(profiles, LabelKey(r))
  {
    forall k | 0 <= k < |profiles|
      ensures ProfileProblem(r, profiles, k).None? <==>
        && ProfileOk(r, profiles[k])
        && (forall j :: 0 <= j < k ==> profiles[j].id != profiles[k].id)
        && (forall j :: 0 <= j < k ==> LabelKey(r)(profiles[j]) != LabelKey(r)(profiles[k]))
    {
    }
    hide ProfileProblem, ProfileOk, LabelKey;
  }

  lemma TargetsAcceptable(r: TextRules, profiles: seq<Profile>, targets: seq<Target>)
    requires DistinctBy(profiles, ProfileID)
    ensures (forall k :: 0 <= k < |targets| ==> TargetProblem(r, profiles, targets, k).None?) <==>
      && (forall t :: t in targets ==> TargetOk(r, profiles, t)) && DistinctBy(targets, TargetID)
      && (forall i, j :: 0 <= i < j < |targets| ==> !Clash(r, profiles, targets[i], targets[j]))
  {
    forall k | 0 <= k < |targets|
      ensures TargetProblem(r, profiles, targets, k).None? <==>
        && TargetOk(r, profiles, targets[k])
        && (forall j :: 0 <= j < k ==> targets[j].id != targets[k].id)
        && (forall j :: 0 <= j < k ==> !Clash(r, profiles, targets[j], targets[k]))
    {
      TargetProblemMeaning(r, profiles, targets, k);
    }
    hide TargetProblem, TargetOk, Clash;
  }

  // --------------------------------------------------------------- routing index

  predicate OverlapsAny(routes: seq<Route>, route: Route) {
    exists k :: 0 <= k < |routes| && Overlap(routes[k], route)
  }

  /** The routes already accepted for one label, as three sets. */
  class TargetRoutes {
    var organizations: set<Text>
    var repositories: set<Text>
    var repositoryOwners: set<Text>
    ghost var added: seq<Route>

    ghost predicate Valid()
      reads this
    {
      && (forall s :: s in organizations <==> exists k :: 0 <= k < |added| && added[k].kind.Organization? && added[k].scope == s)
      && (forall s :: s in repositories <==> exists k :: 0 <= k < |added| && added[k].kind.Repository? && added[k].scope == s)
      && (forall s :: s in repositoryOwners <==> exists k :: 0 <= k < |added| && added[k].kind.Repository? && added[k].owner == s)
      && (forall k :: 0 <= k < |added| ==> !added[k].kind.OtherKind?)
    }

    constructor ()
      ensures Valid() && added == []
    {
      organizations, repositories, repositoryOwners, added := {}, {}, {}, [];
    }

    /** Three set lookups decide the pairwise question for all routes added so far. */
    method Overlaps(route: Route) returns (b: bool)
      requires Valid()
      requires route.kind.Organization? ==> route.owner == route.scope
      ensures b == (route.kind.OtherKind? || OverlapsAny(added, route))
    {
      match route.kind {
        case Organization => b := route.scope in organizations || route.owner in repositoryOwners;
        case Repository => b := route.scope in repositories || route.owner in organizations;
        case OtherKind => b := true;
      }
    }

    method Add(route: Route)
      requires Valid() && !route.kind.OtherKind?
      modifies this
      ensures Valid() && added == old(added) + [route]
    {
      if route.kind.Organization? {
        organizations := organizations + {route.scope};
      } else {
        repositories := repositories + {route.scope};
        repositoryOwners := repositoryOwners + {route.owner};
      }
      added := added + [route];
      assert added[|added| - 1] == route;
      assert forall k :: 0 <= k < |old(added)| ==> added[k] == old(added)[k];
    }
  }

  function RouteOf(r: TextRules, t: Target): Option<Route> {
    match ValidatedScope(r, t.scopeKind, t.scope)
    case Ok(route) => Some(route)
    case Err(_) => None
  }

  function LabelOf(r: TextRules, profiles: seq<Profile>, t: Target): Option<Text> {
    match FindProfile(profiles, t.runnerProfileID)
    case None => None
    case Some(p) => Some(r.lower(p.profileLabel))
  }

  /** The routes of the targets with this label, in order. */
  function RoutesWith(r: TextRules, profiles: seq<Profile>, targets: seq<Target>, tag: Text): seq<Route> {
    if targets == [] then []
    else
      var n := |targets| - 1;
      var before := RoutesWith(r, profiles, targets[..n], tag);
      if LabelOf(r, profiles, targets[n]) == Some(tag) && RouteOf(r, targets[n]).Some?
      then before + [RouteOf(r, targets[n]).value]
      else before
  }

  lemma {:induction false} RoutesWithMembers(r: TextRules, profiles: seq<Profile>, targets: seq<Target>, tag: Text, route: Route)
    ensures route in RoutesWith(r, profiles, targets, tag) <==>
      exists j :: 0 <= j < |targets| && LabelOf(r, profiles, targets[j]) == Some(tag) && RouteOf(r, targets[j]) == Some(route)
    decreases |targets|
  {
    hide RouteOf, LabelOf;
    if targets != [] {
      var n := |targets| - 1;
      var t := targets[n];
      RoutesWithMembers(r, profiles, targets[..n], tag, route);
      assert forall j :: 0 <= j < n ==> targets[..n][j] == targets[j];
    }
  }

  lemma ClashMeaning(r: TextRules, profiles: seq<Profile>, x: Target, y: Target)
    requires DistinctBy(profiles, ProfileID)
    ensures Clash(r, profiles, x, y) <==>
      && LabelOf(r, profiles, x).Some? && LabelOf(r, profiles, x) == LabelOf(r, profiles, y)
      && RouteOf(r, x).Some? && RouteOf(r, y).Some? && Overlap(RouteOf(r, x).value, RouteOf(r, y).value)
  {
    FindsTheProfile(profiles, x.runnerProfileID);
    FindsTheProfile(profiles, y.runnerProfileID);
    hide ValidatedScope, Overlap;
  }

  /** The index answers for the routes of one label what the pairwise test asks of all
      earlier targets. */
  lemma IndexFindsClashes(r: TextRules, profiles: seq<Profile>, targets: seq<Target>, i: nat, tag: Text, route: Route)
    requires DistinctBy(profiles, ProfileID) && i < |targets|
    requires LabelOf(r, profiles, targets[i]) == Some(tag) && RouteOf(r, targets[i]) == Some(route)
    ensures var routes := RoutesWith(r, profiles, targets[..i], tag);
      OverlapsAny(routes, route) <==> ClashesBefore(r, profiles, targets, i)
  {
    var routes := RoutesWith(r, profiles, targets[..i], tag);
    hide Overlap, Clash, RouteOf, LabelOf, RoutesWith;
    if k :| 0 <= k < |routes| && Overlap(routes[k], route) {
      RoutesWithMembers(r, profiles, targets[..i], tag, routes[k]);
      var j :| 0 <= j < |targets[..i]| && LabelOf(r, profiles, targets[..i][j]) == Some(tag) && RouteOf(r, targets[..i][j]) == Some(routes[k]);
      ClashMeaning(r, profiles, targets[j], targets[i]);
    }
    if j :| 0 <= j < i && Clash(r, profiles, targets[j], targets[i]) {
      ClashMeaning(r, profiles, targets[j], targets[i]);
      assert targets[..i][j] == targets[j];
      RoutesWithMembers(r, profiles, targets[..i], tag, RouteOf(r, targets[j]).value);
    }
  }

  // ------------------------------------------------------------------ validation

  method ValidateNodes(r: TextRules, nodes: seq<Node>) returns (problem: Option<Problem>)
    ensures problem == FirstNodeProblem(r, nodes, 0)
  {
    var nodeIDs: set<Text> := {};
    for i := 0 to |nodes|
      invariant forall id :: id in nodeIDs <==> exists j :: 0 <= j < i && nodes[j].id == id
      invariant FirstNodeProblem(r, nodes, 0) == FirstNodeProblem(r, nodes, i)
    {
      var node := nodes[i];
      if !CanonicalIdentifier(r, node.id) { return Some(Problem(Required, NodeField(i, "id"))); }
      if r.trim(node.displayName) == [] { return Some(Problem(Required, NodeField(i, "displayName"))); }
      if node.maxRunners < 1 { return Some(Problem(InvalidMaxRunners, NodeField(i, "maxRunners"))); }
      if node.id in nodeIDs { return Some(Problem(DuplicateNodeID, NodeField(i, "id"))); }
      nodeIDs := nodeIDs + {node.id};
    }
    problem := None;
  }

  /** The identifiers of the first `i` profiles, each with its profile. */
  ghost predicate MapsFirst(m: map<Text, Profile>, profiles: seq<Profile>, i: nat)
    requires i <= |profiles|
  {
    && (forall id :: id in m <==> exists j :: 0 <= j < i && profiles[j].id == id)
    && (forall j :: 0 <= j < i ==> profiles[j].id in m && m[profiles[j].id] == profiles[j])
  }

  ghost predicate LabelsOfFirst(r: TextRules, labels: set<Text>, profiles: seq<Profile>, i: nat)
    requires i <= |profiles|
  {
    forall l :: l in labels <==> exists j :: 0 <= j < i && r.lower(profiles[j].profileLabel) == l
  }

  method ValidateProfile(r: TextRules, profiles: seq<Profile>, i: nat, profileIDs: map<Text, Profile>, labels: set<Text>)
    returns (problem: Option<Problem>)
    requires i < |profiles| && MapsFirst(profileIDs, profiles, i) && LabelsOfFirst(r, labels, profiles, i)
    ensures problem == ProfileProblem(r, profiles, i)
    ensures problem.None? ==> profiles[i].id !in profileIDs
  {
    var profile := profiles[i];
    if !CanonicalIdentifier(r, profile.id) { return Some(Problem(Required, ProfileField(i, "id"))); }
    if !CanonicalIdentifier(r, profile.profileLabel) { return Some(Problem(Required, ProfileField(i, "label"))); }
    if profile.id in profileIDs { return Some(Problem(DuplicateProfileID, ProfileField(i, "id"))); }
    if r.lower(profile.profileLabel) in labels { return Some(Problem(DuplicateProfileLabel, ProfileField(i, "label"))); }
    if !r.validProfile(profile) { return Some(Problem(InvalidProfile, ProfileField(i, ""))); }
    problem := None;
  }

  method ValidateProfiles(r: TextRules, profiles: seq<Profile>)
    returns (problem: Option<Problem>, profileIDs: map<Text, Profile>)
    ensures problem == FirstProfileProblem(r, profiles, 0)
    ensures problem.None? ==> DistinctBy(profiles, ProfileID) && forall id :: Lookup(profileIDs, id) == FindProfile(profiles, id)
  {
    hide ProfileProblem, MapsFirst, LabelsOfFirst;
    profileIDs := map[];
    var profileLabels: set<Text> := {};
    NothingFirst(r, profiles);
    for i := 0 to |profiles|
      invariant MapsFirst(profileIDs, profiles, i) && LabelsOfFirst(r, profileLabels, profiles, i)
      invariant FirstProfileProblem(r, profiles, 0) == FirstProfileProblem(r, profiles, i)
    {
      problem := ValidateProfile(r, profiles, i, profileIDs, profileLabels);
      if problem.Some? { return problem, profileIDs; }
      OneMoreFirst(r, profiles, i, profileIDs, profileLabels);
      profileIDs := profileIDs[profiles[i].id := profiles[i]];
      profileLabels := profileLabels + {r.lower(profiles[i].profileLabel)};
    }
    problem := None;
    NoProfileProblem(r, profiles, 0);
    ProfilesAcceptable(r, profiles);
    forall id ensures Lookup(profileIDs, id) == FindProfile(profiles, id) {
      MapFindsProfiles(profileIDs, profiles, id);
    }
  }

  lemma NothingFirst(r: TextRules, profiles: seq<Profile>)
    ensures MapsFirst(map[], profiles, 0) && LabelsOfFirst(r, {}, profiles, 0)
  {
  }

  lemma OneMoreFirst(r: TextRules, profiles: seq<Profile>, i: nat, m: map<Text, Profile>, labels: set<Text>)
    requires i < |profiles| && MapsFirst(m, profiles, i) && LabelsOfFirst(r, labels, profiles, i) && profiles[i].id !in m
    ensures MapsFirst(m[profiles[i].id := profiles[i]], profiles, i + 1)
    ensures LabelsOfFirst(r, labels + {r.lower(profiles[i].profileLabel)}, profiles, i + 1)
  {
  }

  lemma MapFindsProfiles(profileIDs: map<Text, Profile>, profiles: seq<Profile>, id: Text)
    requires MapsFirst(profileIDs, profiles, |profiles|) && DistinctBy(profiles, ProfileID)
    ensures Lookup(profileIDs, id) == FindProfile(profiles, id)
  {
    FindsTheProfile(profiles, id);
  }

  /** The routes kept for each label are those of the targets before `i`. */
  ghost predicate Indexed(r: TextRules, profiles: seq<Profile>, targets: seq<Target>, routes: map<Text, TargetRoutes>)
    reads routes.Values
  {
    && (forall l :: l in routes ==> routes[l].Valid() && routes[l].added == RoutesWith(r, profiles, targets, l))
    && (forall l :: l !in routes ==> RoutesWith(r, profiles, targets, l) == [])
    && (forall l, m :: l in routes && m in routes && l != m ==> routes[l] != routes[m])
  }

  method ValidateTarget(r: TextRules, profiles: seq<Profile>, profileIDs: map<Text, Profile>,
      targets: seq<Target>, i: nat, targetIDs: set<Text>)
    returns (problem: Option<Problem>, tag: Text, route: Route)
    requires forall id :: Lookup(profileIDs, id) == FindProfile(profiles, id)
    requires i < |targets| && IDsOfFirst(targetIDs, targets, i)
    ensures problem == OwnTargetProblem(r, profiles, targets, i)
    ensures problem.None? ==>
      && LabelOf(r, profiles, targets[i]) == Some(tag) && RouteOf(r, targets[i]) == Some(route)
      && !route.kind.OtherKind? && (route.kind.Organization? ==> route.owner == route.scope)
  {
    var target := targets[i];
    tag, route := [], Route(OtherKind, [], []);
    if !CanonicalIdentifier(r, target.id) { problem := Some(Problem(Required, TargetField(i, "id"))); return; }
    if target.id in targetIDs { problem := Some(Problem(DuplicateTargetID, TargetField(i, "id"))); return; }
    if !CanonicalIdentifier(r, target.installationID) { problem := Some(Problem(Required, TargetField(i, "installationId"))); return; }
    if !CanonicalIdentifier(r, target.scaleSetName) { problem := Some(Problem(Required, TargetField(i, "scaleSetName"))); return; }
    if !CanonicalIdentifier(r, target.runnerProfileID) { problem := Some(Problem(Required, TargetField(i, "runnerProfileId"))); return; }
    assert Lookup(profileIDs, target.runnerProfileID) == FindProfile(profiles, target.runnerProfileID);
    if target.runnerProfileID !in profileIDs { problem := Some(Problem(UnknownProfile, TargetField(i, "runnerProfileId"))); return; }
    var profile := profileIDs[target.runnerProfileID];
    if !r.equalFold(target.scaleSetName, profile.profileLabel) {
      problem := Some(Problem(ScaleSetProfileMismatch, TargetField(i, "scaleSetName")));
      return;
    }
    var scope := ValidatedScope(r, target.scopeKind, target.scope);
    if scope.Err? { problem := Some(Problem(scope.error.code, TargetField(i, scope.error.name))); return; }
    problem, tag, route := None, r.lower(profile.profileLabel), scope.value;
  }

  /** Compares a target's route with those of its label, then records it. */
  method AddRoute(r: TextRules, profiles: seq<Profile>, targets: seq<Target>, i: nat, tag: Text, route: Route,
      routes: map<Text, TargetRoutes>)
    returns (overlaps: bool, updated: map<Text, TargetRoutes>)
    requires DistinctBy(profiles, ProfileID) && i < |targets| && Indexed(r, profiles, targets[..i], routes)
    requires LabelOf(r, profiles, targets[i]) == Some(tag) && RouteOf(r, targets[i]) == Some(route)
    requires !route.kind.OtherKind? && (route.kind.Organization? ==> route.owner == route.scope)
    modifies routes.Values
    ensures overlaps == ClashesBefore(r, profiles, targets, i)
    ensures !overlaps ==> Indexed(r, profiles, targets[..i + 1], updated)
    ensures fresh(updated.Values - routes.Values)
  {
    hide LabelOf, RouteOf, ClashesBefore, OverlapsAny, RoutesWith, DistinctBy;
    updated := routes;
    if tag !in routes {
      var created := new TargetRoutes();
      updated := routes[tag := created];
    }
    ghost var earlier := RoutesWith(r, profiles, targets[..i], tag);
    assert updated[tag].added == earlier && updated[tag].Valid();
    overlaps := updated[tag].Overlaps(route);
    assert overlaps == OverlapsAny(earlier, route);
    IndexFindsClashes(r, profiles, targets, i, tag, route);
    if !overlaps { AddToIndex(r, profiles, targets, i, tag, route, updated); }
  }

  ghost predicate IDsOfFirst(ids: set<Text>, targets: seq<Target>, i: nat)
    requires i <= |targets|
  {
    forall id :: id in ids <==> exists j :: 0 <= j < i && targets[j].id == id
  }

  lemma NoTargetYet(r: TextRules, profiles: seq<Profile>, targets: seq<Target>)
    ensures IDsOfFirst({}, targets, 0) && Indexed(r, profiles, targets[..0], map[])
  {
    assert targets[..0] == [];
  }

  lemma OneMoreID(ids: set<Text>, targets: seq<Target>, i: nat)
    requires i < |targets| && IDsOfFirst(ids, targets, i)
    ensures IDsOfFirst(ids + {targets[i].id}, targets, i + 1)
  {
  }

  method ValidateTargets(r: TextRules, profiles: seq<Profile>, profileIDs: map<Text, Profile>, targets: seq<Target>)
    returns (problem: Option<Problem>)
    requires DistinctBy(profiles, ProfileID) && forall id :: Lookup(profileIDs, id) == FindProfile(profiles, id)
    ensures problem == FirstTargetProblem(r, profiles, targets, 0)
  {
    hide OwnTargetProblem, LabelOf, RouteOf, ClashesBefore, FindProfile, Lookup, DistinctBy, IDsOfFirst, Indexed;
    var targetIDs: set<Text> := {};
    var routes: map<Text, TargetRoutes> := map[];
    NoTargetYet(r, profiles, targets);
    for i := 0 to |targets|
      invariant IDsOfFirst(targetIDs, targets, i)
      invariant fresh(routes.Values) && Indexed(r, profiles, targets[..i], routes)
      invariant FirstTargetProblem(r, profiles, targets, 0) == FirstTargetProblem(r, profiles, targets, i)
    {
      var tag, route, overlaps;
      problem, tag, route := ValidateTarget(r, profiles, profileIDs, targets, i, targetIDs);
      if problem.Some? { return; }
      OneMoreID(targetIDs, targets, i);
      targetIDs := targetIDs + {targets[i].id};
      overlaps, routes := AddRoute(r, profiles, targets, i, tag, route, routes);
      if overlaps {
        problem := Some(Problem(OverlappingRouting, TargetField(i, "scope")));
        return;
      }
    }
    problem := None;
  }

  lemma OneMoreRoute(r: TextRules, profiles: seq<Profile>, targets: seq<Target>, i: nat, l: Text, tag: Text, route: Route)
    requires i < |targets| && LabelOf(r, profiles, targets[i]) == Some(tag) && RouteOf(r, targets[i]) == Some(route)
    ensures RoutesWith(r, profiles, targets[..i + 1], l) ==
      RoutesWith(r, profiles, targets[..i], l) + if l == tag then [route] else []
  {
    hide LabelOf, RouteOf;
    assert targets[..i + 1][..i] == targets[..i] && targets[..i + 1][i] == targets[i];
  }

  method AddToIndex(r: TextRules, profiles: seq<Profile>, targets: seq<Target>, i: nat, tag: Text, route: Route,
      routes: map<Text, TargetRoutes>)
    requires i < |targets| && LabelOf(r, profiles, targets[i]) == Some(tag) && RouteOf(r, targets[i]) == Some(route)
    requires !route.kind.OtherKind? && tag in routes && Indexed(r, profiles, targets[..i], routes)
    modifies routes[tag]
    ensures Indexed(r, profiles, targets[..i + 1], routes)
  {
    hide LabelOf, RouteOf, RoutesWith;
    forall l ensures RoutesWith(r, profiles, targets[..i + 1], l) ==
      RoutesWith(r, profiles, targets[..i], l) + if l == tag then [route] else []
    {
      OneMoreRoute(r, profiles, targets, i, l, tag, route);
    }
    routes[tag].Add(route);
  }

  /** Configuration.Validate: sets and maps filled in one pass over each list. */
  method Validate(r: TextRules, c: Configuration) returns (problem: Option<Problem>)
    ensures problem == FirstProblem(r, c)
    ensures problem.None? <==> Acceptable(r, c)
  {
    AcceptsExactlyTheAcceptable(r, c);
    hide Acceptable;
    if c.schemaVersion != SCHEMA_VERSION { return Some(Problem(UnsupportedSchemaVersion, SchemaVersionField)); }
    if c.maxRunners.Some? && c.maxRunners.value < 1 { return Some(Problem(InvalidMaxRunners, SchedulerField)); }
    problem := ValidateNodes(r, c.nodes);
    if problem.Some? { return; }
    var profileIDs;
    problem, profileIDs := ValidateProfiles(r, c.profiles);
    if problem.Some? { return; }
    problem := ValidateTargets(r, c.profiles, profileIDs, c.targets);
  }

  // -------------------------------------------------------------- canonical form

  function Canonical(c: Configuration): Configuration {
    c.(nodes := SortBy(c.nodes, NodeID), profiles := SortBy(c.profiles, ProfileID), targets := SortBy(c.targets, TargetID))
  }

  /** The same configuration with its lists in any order. */
  ghost predicate Reordered(c: Configuration, d: Configuration) {
    && d == c.(nodes := d.nodes, profiles := d.profiles, targets := d.targets)
    && multiset(c.nodes) == multiset(d.nodes)
    && multiset(c.profiles) == multiset(d.profiles)
    && multiset(c.targets) == multiset(d.targets)
  }

  lemma ReorderedBack(c: Configuration, d: Configuration)
    requires Reordered(c, d)
    ensures Reordered(d, c)
  {
  }

  lemma SameElements<T>(a: seq<T>, b: seq<T>, x: T)
    requires multiset(a) == multiset(b)
    ensures x in a <==> x in b
  {
    assert x in a <==> x in multiset(a);
    assert x in b <==> x in multiset(b);
  }

  lemma ClashIsSymmetric(r: TextRules, profiles: seq<Profile>, x: Target, y: Target)
    requires Clash(r, profiles, x, y)
    ensures Clash(r, profiles, y, x)
  {
    var p, q :| p in profiles && q in profiles && p.id == x.runnerProfileID && q.id == y.runnerProfileID &&
      r.lower(p.profileLabel) == r.lower(q.profileLabel);
    hide ValidatedScope;
  }

  lemma ProfilesOrderless(r: TextRules, a: seq<Profile>, b: seq<Profile>, x: Target, y: Target)
    requires multiset(a) == multiset(b)
    ensures TargetOk(r, a, x) ==> TargetOk(r, b, x)
    ensures Clash(r, b, x, y) ==> Clash(r, a, x, y)
  {
    forall p ensures p in a <==> p in b { SameElements(a, b, p); }
    hide ValidatedScope, CanonicalIdentifier;
  }

  /** No clash between any two different targets, wherever they stand. */
  lemma ClashesOrderless(r: TextRules, profiles: seq<Profile>, a: seq<Target>, b: seq<Target>, i: nat, j: nat)
    requires multiset(a) == multiset(b) && DistinctBy(b, TargetID) && i < j < |b|
    requires forall k, l :: 0 <= k < l < |a| ==> !Clash(r, profiles, a[k], a[l])
    ensures !Clash(r, profiles, b[i], b[j])
  {
    hide Clash;
    SameElements(a, b, b[i]);
    SameElements(a, b, b[j]);
    var k: nat :| k < |a| && a[k] == b[i];
    var l: nat :| l < |a| && a[l] == b[j];
    assert TargetID(b[i]) != TargetID(b[j]);
    assert k < l || l < k;
    if Clash(r, profiles, b[i], b[j]) {
      ClashIsSymmetric(r, profiles, b[i], b[j]);
    }
  }

  /** Acceptance does not depend on the order of the lists. */
  lemma AcceptanceIgnoresOrder(r: TextRules, c: Configuration, d: Configuration)
    requires Reordered(c, d)
    ensures FirstProblem(r, c).None? <==> FirstProblem(r, d).None?
  {
    AcceptsExactlyTheAcceptable(r, c);
    AcceptsExactlyTheAcceptable(r, d);
    hide FirstProblem, Acceptable, Reordered;
    if Acceptable(r, c) { AcceptableStays(r, c, d); }
    if Acceptable(r, d) {
      ReorderedBack(c, d);
      AcceptableStays(r, d, c);
    }
  }

  lemma AcceptableStays(r: TextRules, c: Configuration, d: Configuration)
    requires Reordered(c, d) && Acceptable(r, c)
    ensures Acceptable(r, d)
  {
    DistinctIsOrderless(c.nodes, d.nodes, NodeID);
    DistinctIsOrderless(c.profiles, d.profiles, ProfileID);
    DistinctIsOrderless(c.profiles, d.profiles, LabelKey(r));
    DistinctIsOrderless(c.targets, d.targets, TargetID);
    forall n ensures n in c.nodes <==> n in d.nodes { SameElements(c.nodes, d.nodes, n); }
    forall p ensures p in c.profiles <==> p in d.profiles { SameElements(c.profiles, d.profiles, p); }
    forall t ensures t in c.targets <==> t in d.targets { SameElements(c.targets, d.targets, t); }
    hide NodeOk, ProfileOk, TargetOk, Clash, DistinctBy, LabelKey;
    forall t | t in d.targets ensures TargetOk(r, d.profiles, t) {
      ProfilesOrderless(r, c.profiles, d.profiles, t, t);
    }
    forall i, j | 0 <= i < j < |d.targets| ensures !Clash(r, d.profiles, d.targets[i], d.targets[j]) {
      ClashesOrderless(r, c.profiles, c.targets, d.targets, i, j);
      ProfilesOrderless(r, c.profiles, d.profiles, d.targets[i], d.targets[j]);
    }
  }

  lemma CanonicalIsReordered(c: Configuration)
    ensures Reordered(c, Canonical(c))
  {
  }

  /** The canonical form of an accepted configuration is accepted, is the same for every
      order of the lists, and is its own canonical form. */
  lemma CanonicalFormIsUnique(r: TextRules, c: Configuration, d: Configuration)
    requires FirstProblem(r, c).None? && Reordered(c, d)
    ensures FirstProblem(r, Canonical(c)).None?
    ensures Canonical(c) == Canonical(d)
    ensures Canonical(Canonical(c)) == Canonical(c)
  {
    CanonicalIsReordered(c);
    AcceptanceIgnoresOrder(r, c, Canonical(c));
    AcceptsExactlyTheAcceptable(r, c);
    AcceptsExactlyTheAcceptable(r, Canonical(c));
    hide FirstProblem, NodeOk, ProfileOk, TargetOk, Clash;
    SortForgetsOrder(c.nodes, d.nodes, NodeID);
    SortForgetsOrder(c.profiles, d.profiles, ProfileID);
    SortForgetsOrder(c.targets, d.targets, TargetID);
    SortIsSorted(c.nodes, NodeID);
    SortIsSorted(c.profiles, ProfileID);
    SortIsSorted(c.targets, TargetID);
    SortedIsFixed(SortBy(c.nodes, NodeID), NodeID);
    SortedIsFixed(SortBy(c.profiles, ProfileID), ProfileID);
    SortedIsFixed(SortBy(c.targets, TargetID), TargetID);
  }

  /** Whatever sorting algorithm is used, the result for an accepted configuration is the
      canonical form. */
  lemma AnySortedOrderIsCanonical(r: TextRules, c: Configuration, d: Configuration)
    requires FirstProblem(r, c).None? && Reordered(c, d)
    requires SortedBy(d.nodes, NodeID) && SortedBy(d.profiles, ProfileID) && SortedBy(d.targets, TargetID)
    ensures d == Canonical(c)
  {
    AcceptanceIgnoresOrder(r, c, d);
    AcceptsExactlyTheAcceptable(r, d);
    CanonicalFormIsUnique(r, c, d);
    hide FirstProblem, NodeOk, ProfileOk, TargetOk, Clash;
    SortedIsFixed(d.nodes, NodeID);
    SortedIsFixed(d.profiles, ProfileID);
    SortedIsFixed(d.targets, TargetID);
  }

  // ----------------------------------------------------------- sorting the copies

  lemma InsertPast<T>(before: seq<T>, x: T, rest: seq<T>, key: T -> Text)
    requires rest != [] && Below(key(rest[0]), key(x))
    ensures (before + [rest[0]]) + InsertBy(x, rest[1..], key) == before + InsertBy(x, rest, key)
  {
  }

  lemma InsertHere<T>(before: seq<T>, x: T, rest: seq<T>, key: T -> Text)
    requires rest == [] || !Below(key(rest[0]), key(x))
    ensures before + [x] + rest == before + InsertBy(x, rest, key)
  {
  }

  /** Moves one element down into the sorted rest. */
  method InsertInPlace<T>(a: array<T>, i: nat, key: T -> Text)
    requires i < a.Length
    modifies a
    ensures a[..] == old(a[..i]) + InsertBy(old(a[i]), old(a[i + 1..]), key)
    decreases a.Length - i
  {
    ghost var before, x, rest := a[..i], a[i], a[i + 1..];
    if i + 1 < a.Length && Below(key(a[i + 1]), key(a[i])) {
      InsertPast(before, x, rest, key);
      a[i], a[i + 1] := a[i + 1], a[i];
      assert a[..i + 1] == before + [rest[0]] && a[i + 2..] == rest[1..];
      hide InsertBy;
      InsertInPlace(a, i + 1, key);
    } else {
      InsertHere(before, x, rest, key);
      hide InsertBy;
      assert a[..] == before + [x] + rest;
    }
  }

  method SortSlice<T>(a: array<T>, key: T -> Text)
    modifies a
    ensures a[..] == SortBy(old(a[..]), key)
  {
    var i := a.Length;
    ghost var s := a[..];
    assert a[i..] == [] == s[i..];
    while i > 0
      invariant 0 <= i <= a.Length
      invariant a[..i] == s[..i] && a[i..] == SortBy(s[i..], key)
    {
      i := i - 1;
      assert a[..i] == s[..i] && a[i] == s[i] && a[i + 1..] == SortBy(s[i + 1..], key);
      assert s[i..][0] == s[i] && s[i..][1..] == s[i + 1..];
      InsertInPlace(a, i, key);
    }
    assert a[..] == a[0..] && s == s[0..];
  }

  /** The three lists as slices another holder may share. */
  class Lists {
    var nodes: array<Node>
    var profiles: array<Profile>
    var targets: array<Target>

    constructor (nodes: array<Node>, profiles: array<Profile>, targets: array<Target>)
      ensures this.nodes == nodes && this.profiles == profiles && this.targets == targets
    {
      this.nodes, this.profiles, this.targets := nodes, profiles, targets;
    }
  }

  method Copied<T>(a: array<T>) returns (b: array<T>)
    ensures fresh(b) && b[..] == a[..]
  {
    b := new T[a.Length](i requires 0 <= i < a.Length reads a => a[i]);
  }

  /** canonicalConfiguration: the lists are copied before they are sorted, so its
      argument's lists keep their contents. */
  method CanonicalConfiguration(c: Lists) returns (d: Lists)
    ensures fresh(d) && fresh(d.nodes) && fresh(d.profiles) && fresh(d.targets)
    ensures d.nodes[..] == SortBy(c.nodes[..], NodeID)
    ensures d.profiles[..] == SortBy(c.profiles[..], ProfileID)
    ensures d.targets[..] == SortBy(c.targets[..], TargetID)
  {
    var nodes := Copied(c.nodes);
    var profiles := Copied(c.profiles);
    var targets := Copied(c.targets);
    SortSlice(nodes, NodeID);
    SortSlice(profiles, ProfileID);
    SortSlice(targets, TargetID);
    d := new Lists(nodes, profiles, targets);
  }
}
