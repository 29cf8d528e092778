/** Enrollment tokens, nodes and their credentials (internal/enroll/registry.go) and the
    enrollment service's decision between consuming a token and replaying its result
    (internal/enroll/service.go).

    Digests, keys and serials stand for their values; two digests are equal when the
    secrets are. */
module Enrollment {
  import opened Common

  type TokenID = nat

  type NodeID = nat

  datatype Token = Token(digest: nat, epoch: nat)

  /** Serial 0 stands for an empty serial. */
  datatype Credential = Credential(node: NodeID, serial: nat, epoch: nat, notBefore: int, notAfter: int)

  datatype Node = Node(credential: Credential, revoked: bool, publicKey: nat, certificate: nat)

  datatype RegistryError =
    | TokenNotFound | TokenEpochMismatch | TokenSecretMismatch | NodeExists | CredentialRejected | NodeNotFound
    | StorageFailed

  datatype Registry = Registry(
    tokens: map<TokenID, Token>,
    nodes: map<NodeID, Node>,
    consumed: map<TokenID, Token>,
    consumedNode: map<TokenID, NodeID>)

  datatype Outcome<+T> = Outcome(registry: Registry, result: Result<T, RegistryError>)

  // ------------------------------------------------------------------ sections

  function CreateToken(g: Registry, t: TokenID, token: Token): Outcome<()> {
    if t in g.tokens then Outcome(g, Err(TokenNotFound))
    else Outcome(g.(tokens := g.tokens[t := token]), Ok(()))
  }

  function ConsumeEnrollment(g: Registry, t: TokenID, supplied: Token, n: NodeID, node: Node): Outcome<()> {
    if t !in g.tokens then Outcome(g, Err(TokenNotFound))
    else if g.tokens[t].epoch != supplied.epoch then Outcome(g, Err(TokenEpochMismatch))
    else if g.tokens[t].digest != supplied.digest then Outcome(g, Err(TokenSecretMismatch))
    else if n in g.nodes then Outcome(g, Err(NodeExists))
    else if node.credential.node != n || node.credential.serial == 0 || node.credential.epoch == 0 then
      Outcome(g, Err(CredentialRejected))
    else
      Outcome(
        Registry(g.tokens - {t}, g.nodes[n := node], g.consumed[t := supplied], g.consumedNode[t := n]), Ok(()))
  }

  /** The result of an enrollment that was issued but not yet confirmed; the token's epoch
      no longer matters. */
  function ReplayEnrollment(g: Registry, t: TokenID, supplied: Token, key: nat): Result<(NodeID, Node), RegistryError> {
    if t !in g.consumed || g.consumed[t].digest != supplied.digest then Err(TokenNotFound)
    else if t in g.consumedNode && g.consumedNode[t] in g.nodes &&
      g.nodes[g.consumedNode[t]].publicKey == key && !g.nodes[g.consumedNode[t]].revoked
    then Ok((g.consumedNode[t], g.nodes[g.consumedNode[t]]))
    else Err(TokenNotFound)
  }

  function FinalizeEnrollment(g: Registry, c: Credential): Outcome<()> {
    if c.node !in g.nodes || g.nodes[c.node].revoked || g.nodes[c.node].credential != c then
      Outcome(g, Err(CredentialRejected))
    else
      var open := set t | t in g.consumedNode && g.consumedNode[t] == c.node;
      Outcome(g.(consumed := g.consumed - open, consumedNode := g.consumedNode - open), Ok(()))
  }

  function Revoked(node: Node): Node {
    node.(revoked := true, credential := node.credential.(epoch := node.credential.epoch + 1))
  }

  /** An unused token is dropped; a consumed one takes its node with it. */
  function CancelToken(g: Registry, t: TokenID): Outcome<()> {
    if t in g.tokens then Outcome(g.(tokens := g.tokens - {t}), Ok(()))
    else if t !in g.consumedNode || g.consumedNode[t] !in g.nodes then Outcome(g, Err(TokenNotFound))
    else
      var n := g.consumedNode[t];
      if g.nodes[n].credential.epoch == MAX_UINT64 then Outcome(g, Err(CredentialRejected))
      else
        Outcome(g.(nodes := g.nodes[n := Revoked(g.nodes[n])], consumed := g.consumed - {t},
          consumedNode := g.consumedNode - {t}), Ok(()))
  }

  function RenewCredential(g: Registry, n: NodeID, expected: Credential, replacement: Credential, now: int): Outcome<()> {
    if n !in g.nodes then Outcome(g, Err(NodeNotFound))
    else if g.nodes[n].revoked || g.nodes[n].credential != expected || now < expected.notBefore || now >= expected.notAfter then
      Outcome(g, Err(CredentialRejected))
    else if replacement.node != n || replacement.epoch != expected.epoch || replacement.serial == expected.serial ||
      replacement.notAfter <= replacement.notBefore
    then Outcome(g, Err(CredentialRejected))
    else Outcome(g.(nodes := g.nodes[n := g.nodes[n].(credential := replacement)]), Ok(()))
  }

  function RevokeNode(g: Registry, n: NodeID): Outcome<Credential> {
    if n !in g.nodes then Outcome(g, Err(NodeNotFound))
    else if g.nodes[n].credential.epoch == MAX_UINT64 then Outcome(g, Err(CredentialRejected))
    else
      var node := Revoked(g.nodes[n]);
      Outcome(g.(nodes := g.nodes[n := node]), Ok(node.credential))
  }

  predicate Authorized(g: Registry, c: Credential, now: int) {
    && c.node in g.nodes && !g.nodes[c.node].revoked && g.nodes[c.node].credential == c
    && c.notBefore <= now < c.notAfter
  }

  // --------------------------------------------------------------------- service

  /** A decoded enrollment request with the node the service made for it. */
  datatype Attempt = Attempt(t: TokenID, supplied: Token, n: NodeID, serial: nat, notBefore: int, notAfter: int,
                             publicKey: nat, certificate: nat)

  /** Node credentials start at epoch one, whatever the controller's epoch is. */
  function NodeOf(a: Attempt): Node {
    Node(Credential(a.n, a.serial, 1, a.notBefore, a.notAfter), false, a.publicKey, a.certificate)
  }

  datatype Failure = Rejected | Unavailable

  function FailureOf(e: RegistryError): Failure {
    match e
    case NodeExists => Unavailable
    case NodeNotFound => Unavailable
    case StorageFailed => Unavailable
    case _ => Rejected
  }

  datatype Enrolled = Enrolled(n: NodeID, credential: Credential, certificate: nat)

  function EnrolledAs(n: NodeID, node: Node): Enrolled {
    Enrolled(n, node.credential, node.certificate)
  }

  /** How the store behind the registry answers a section: it may fail before the section,
      or carry it out and then fail to say so. */
  datatype Fault = NoFault | Fails | FailsAfterCommit

  function ConsumeUnder(g: Registry, a: Attempt, fault: Fault): Outcome<()> {
    if fault.Fails? then Outcome(g, Err(StorageFailed))
    else
      var o := ConsumeEnrollment(g, a.t, a.supplied, a.n, NodeOf(a));
      if fault.FailsAfterCommit? && o.result.Ok? then Outcome(o.registry, Err(StorageFailed)) else o
  }

  function ReplayUnder(g: Registry, a: Attempt, fault: Fault): Result<(NodeID, Node), RegistryError> {
    if fault.NoFault? then ReplayEnrollment(g, a.t, a.supplied, a.publicKey) else Err(StorageFailed)
  }

  /** An unavailable replay outranks the reason the consumption gave: the consumption may
      have been committed. */
  function AnswerOf(error: RegistryError, replay: Result<(NodeID, Node), RegistryError>): Result<Enrolled, Failure> {
    if replay.Ok? then Ok(EnrolledAs(replay.value.0, replay.value.1))
    else if FailureOf(replay.error) == Unavailable then Err(Unavailable)
    else Err(FailureOf(error))
  }

  class MemoryRegistry {
    var tokens: map<TokenID, Token>
    var nodes: map<NodeID, Node>
    var consumed: map<TokenID, Token>
    var consumedNode: map<TokenID, NodeID>

    ghost function View(): Registry
      reads this
    {
      Registry(tokens, nodes, consumed, consumedNode)
    }

    constructor ()
      ensures View() == Registry(map[], map[], map[], map[])
    {
      tokens, nodes, consumed, consumedNode := map[], map[], map[], map[];
    }

    method Create(t: TokenID, token: Token) returns (r: Result<(), RegistryError>)
      modifies this`tokens
      ensures Outcome(View(), r) == CreateToken(old(View()), t, token)
    {
      if t in tokens { return Err(TokenNotFound); }
      tokens := tokens[t := token];
      r := Ok(());
    }

    method Consume(t: TokenID, supplied: Token, n: NodeID, node: Node) returns (r: Result<(), RegistryError>)
      modifies this
      ensures Outcome(View(), r) == ConsumeEnrollment(old(View()), t, supplied, n, node)
    {
      if t !in tokens { return Err(TokenNotFound); }
      if tokens[t].epoch != supplied.epoch { return Err(TokenEpochMismatch); }
      if tokens[t].digest != supplied.digest { return Err(TokenSecretMismatch); }
      if n in nodes { return Err(NodeExists); }
      if node.credential.node != n || node.credential.serial == 0 || node.credential.epoch == 0 {
        return Err(CredentialRejected);
      }
      tokens := tokens - {t};
      nodes := nodes[n := node];
      consumed := consumed[t := supplied];
      consumedNode := consumedNode[t := n];
      r := Ok(());
    }

    method Replay(t: TokenID, supplied: Token, key: nat) returns (r: Result<(NodeID, Node), RegistryError>)
      ensures r == ReplayEnrollment(View(), t, supplied, key)
    {
      if t !in consumed || consumed[t].digest != supplied.digest { return Err(TokenNotFound); }
      if t in consumedNode && consumedNode[t] in nodes {
        var n := consumedNode[t];
        if nodes[n].publicKey == key && !nodes[n].revoked { return Ok((n, nodes[n])); }
      }
      r := Err(TokenNotFound);
    }

    method Finalize(c: Credential) returns (r: Result<(), RegistryError>)
      modifies this`consumed, this`consumedNode
      ensures Outcome(View(), r) == FinalizeEnrollment(old(View()), c)
    {
      if c.node !in nodes || nodes[c.node].revoked || nodes[c.node].credential != c { return Err(CredentialRejected); }
      CloseTokensOf(c.node);
      r := Ok(());
    }

    method CloseTokensOf(n: NodeID)
      modifies this`consumed, this`consumedNode
      ensures var open := set t | t in old(consumedNode) && old(consumedNode)[t] == n;
        consumed == old(consumed) - open && consumedNode == old(consumedNode) - open
    {
      var pending := consumedNode.Keys;
      while pending != {}
        invariant pending <= old(consumedNode).Keys
        invariant forall t :: t in consumedNode <==> t in old(consumedNode) && (t in pending || old(consumedNode)[t] != n)
        invariant forall t :: t in consumedNode ==> consumedNode[t] == old(consumedNode)[t]
        invariant forall t :: t in consumed <==>
          t in old(consumed) && (t !in old(consumedNode) || t in pending || old(consumedNode)[t] != n)
        invariant forall t :: t in consumed ==> consumed[t] == old(consumed)[t]
        decreases |pending|
      {
        var t :| t in pending;
        if consumedNode[t] == n {
          consumedNode := consumedNode - {t};
          consumed := consumed - {t};
        }
        pending := pending - {t};
      }
    }

    method Cancel(t: TokenID) returns (r: Result<(), RegistryError>)
      modifies this
      ensures Outcome(View(), r) == CancelToken(old(View()), t)
    {
      if t in tokens {
        tokens := tokens - {t};
        return Ok(());
      }
      if t !in consumedNode || consumedNode[t] !in nodes { return Err(TokenNotFound); }
      var n := consumedNode[t];
      var node := nodes[n];
      if node.credential.epoch == MAX_UINT64 { return Err(CredentialRejected); }
      node := node.(revoked := true);
      node := node.(credential := node.credential.(epoch := node.credential.epoch + 1));
      nodes := nodes[n := node];
      consumedNode := consumedNode - {t};
      consumed := consumed - {t};
      r := Ok(());
    }

    method Renew(n: NodeID, expected: Credential, replacement: Credential, now: int) returns (r: Result<(), RegistryError>)
      modifies this`nodes
      ensures Outcome(View(), r) == RenewCredential(old(View()), n, expected, replacement, now)
    {
      if n !in nodes { return Err(NodeNotFound); }
      var node := nodes[n];
      if node.revoked || node.credential != expected || now < expected.notBefore || now >= expected.notAfter {
        return Err(CredentialRejected);
      }
      if replacement.node != n || replacement.epoch != expected.epoch || replacement.serial == expected.serial ||
        replacement.notAfter <= replacement.notBefore
      {
        return Err(CredentialRejected);
      }
      nodes := nodes[n := node.(credential := replacement)];
      r := Ok(());
    }

    method Revoke(n: NodeID) returns (r: Result<Credential, RegistryError>)
      modifies this`nodes
      ensures Outcome(View(), r) == RevokeNode(old(View()), n)
    {
      if n !in nodes { return Err(NodeNotFound); }
      var node := nodes[n];
      if node.credential.epoch == MAX_UINT64 { return Err(CredentialRejected); }
      node := node.(revoked := true);
      node := node.(credential := node.credential.(epoch := node.credential.epoch + 1));
      nodes := nodes[n := node];
      r := Ok(node.credential);
    }

    /** Service.Enroll without anyone in between: consume, and on any failure replay. */
    method Enroll(a: Attempt, consuming: Fault, replaying: Fault) returns (r: Result<Enrolled, Failure>)
      modifies this
      ensures var o := ConsumeUnder(old(View()), a, consuming);
        && View() == o.registry
        && r == (if o.result.Ok? then Ok(EnrolledAs(a.n, NodeOf(a)))
                 else AnswerOf(o.result.error, ReplayUnder(o.registry, a, replaying)))
    {
      var consume: Result<(), RegistryError> := Err(StorageFailed);
      if !consuming.Fails? {
        consume := Consume(a.t, a.supplied, a.n, NodeOf(a));
        if consume.Ok? && consuming.FailsAfterCommit? { consume := Err(StorageFailed); }
      }
      if consume.Ok? { return Ok(EnrolledAs(a.n, NodeOf(a))); }
      var replay: Result<(NodeID, Node), RegistryError> := Err(StorageFailed);
      if replaying.NoFault? { replay := Replay(a.t, a.supplied, a.publicKey); }
      if replay.Ok? { return Ok(EnrolledAs(replay.value.0, replay.value.1)); }
      if FailureOf(replay.error) == Unavailable { return Err(Unavailable); }
      r := Err(FailureOf(consume.error));
    }
  }

  // ------------------------------------------------------------------- machine

  type RequestID = nat

  datatype Stage =
    | Consuming(a: Attempt)
    | Replaying(a: Attempt, error: RegistryError)
    | Succeeded(a: Attempt, enrolled: Enrolled)
    | Refused(failure: Failure)

  datatype Binding = Binding(n: NodeID, publicKey: nat)

  /** History: how each token was created, which node and key each consumed token is bound
      to, the nodes revoked or cancelled, those whose enrollment was finalized, those whose
      credential was renewed, the serials each node has had, the certificate each credential
      was issued with, and all certificates issued. */
  datatype State = State(
    registry: Registry,
    requests: map<RequestID, Stage>,
    created: map<TokenID, Token>,
    bound: map<TokenID, Binding>,
    withdrawn: set<NodeID>,
    finalized: set<NodeID>,
    renewed: set<NodeID>,
    serials: set<(NodeID, nat)>,
    certificates: map<Credential, nat>,
    issued: set<nat>)

  datatype Event =
    | Create(t: TokenID, token: Token)
    | Arrive(p: RequestID, a: Attempt)
    | Continue(p: RequestID, fault: Fault)
    | Finalize(c: Credential)
    | Cancel(t: TokenID)
    | Renew(n: NodeID, expected: Credential, replacement: Credential, certificate: nat, now: int)
    | Revoke(n: NodeID)

  const EMPTY := State(Registry(map[], map[], map[], map[]), map[], map[], map[], {}, {}, {}, {}, map[], {})

  /** Token identifiers are random and never repeat, nor do certificates and their serials. */
  predicate Enabled(s: State, e: Event) {
    match e
    case Create(t, _) => t !in s.created
    case Arrive(p, _) => p !in s.requests
    case Continue(p, _) => p in s.requests
    case Renew(n, _, replacement, certificate, _) => (n, replacement.serial) !in s.serials && certificate !in s.issued
    case _ => true
  }

  function Step(s: State, e: Event): State {
    match e
    case Create(t, token) => s.(registry := CreateToken(s.registry, t, token).registry, created := s.created[t := token])
    case Arrive(p, a) => s.(requests := s.requests[p := Consuming(a)])
    case Continue(p, fault) => if p in s.requests then Proceed(s, p, s.requests[p], fault) else s
    case Finalize(c) =>
      var o := FinalizeEnrollment(s.registry, c);
      s.(registry := o.registry, finalized := if o.result.Ok? then s.finalized + {c.node} else s.finalized)
    case Cancel(t) =>
      var o := CancelToken(s.registry, t);
      s.(registry := o.registry,
         withdrawn := if o.result.Ok? && t !in s.registry.tokens then s.withdrawn + {s.registry.consumedNode[t]} else s.withdrawn)
    case Renew(n, expected, replacement, certificate, now) => Renewed(s, n, expected, replacement, certificate, now)
    case Revoke(n) =>
      var o := RevokeNode(s.registry, n);
      s.(registry := o.registry, withdrawn := if o.result.Ok? then s.withdrawn + {n} else s.withdrawn)
  }

  /** The certificate of a renewal that is refused reaches nobody, but is used up. */
  function Renewed(s: State, n: NodeID, expected: Credential, replacement: Credential, certificate: nat, now: int): State {
    var o := RenewCredential(s.registry, n, expected, replacement, now);
    s.(registry := o.registry,
       serials := s.serials + {(n, replacement.serial)},
       issued := s.issued + {certificate},
       renewed := if o.result.Ok? then s.renewed + {n} else s.renewed,
       certificates := if o.result.Ok? then s.certificates[replacement := certificate] else s.certificates)
  }

  /** The token is exchanged for the node, if the registry allows it. */
  function Committed(s: State, a: Attempt): State {
    var o := ConsumeEnrollment(s.registry, a.t, a.supplied, a.n, NodeOf(a));
    if o.result.Err? then s
    else
      s.(registry := o.registry, bound := s.bound[a.t := Binding(a.n, a.publicKey)],
         serials := s.serials + {(a.n, a.serial)},
         certificates := s.certificates[NodeOf(a).credential := a.certificate],
         issued := s.issued + {a.certificate})
  }

  function Move(s: State, p: RequestID, stage: Stage): State {
    s.(requests := s.requests[p := stage])
  }

  function AfterConsuming(a: Attempt, result: Result<(), RegistryError>): Stage {
    if result.Ok? then Succeeded(a, EnrolledAs(a.n, NodeOf(a))) else Replaying(a, result.error)
  }

  function AfterReplaying(a: Attempt, answer: Result<Enrolled, Failure>): Stage {
    if answer.Ok? then Succeeded(a, answer.value) else Refused(answer.error)
  }

  /** Enrollment is two sections; anything may happen between consuming and replaying. */
  function Proceed(s: State, p: RequestID, stage: Stage, fault: Fault): State {
    match stage
    case Consuming(a) =>
      Move(if fault.Fails? then s else Committed(s, a), p, AfterConsuming(a, ConsumeUnder(s.registry, a, fault).result))
    case Replaying(a, error) =>
      Move(s, p, AfterReplaying(a, AnswerOf(error, ReplayUnder(s.registry, a, fault))))
    case _ => s
  }

  ghost predicate IsRun(states: seq<State>, events: seq<Event>) {
    && |states| == |events| + 1
    && states[0] == EMPTY
    && forall i :: 0 <= i < |events| ==> Enabled(states[i], events[i]) && states[i + 1] == Step(states[i], events[i])
  }

  // ----------------------------------------------------------------- invariant

  ghost predicate TokenInv(s: State) {
    && (forall t :: t in s.registry.tokens ==> t in s.created && s.registry.tokens[t] == s.created[t] && t !in s.bound)
    && (forall t :: t in s.bound ==> t in s.created)
    && s.registry.consumed.Keys == s.registry.consumedNode.Keys
    && (forall t :: t in s.registry.consumedNode ==>
          && t in s.bound && s.bound[t].n == s.registry.consumedNode[t]
          && s.registry.consumed[t].digest == s.created[t].digest)
    && (forall t :: t in s.bound ==>
          s.bound[t].n in s.registry.nodes && s.registry.nodes[s.bound[t].n].publicKey == s.bound[t].publicKey)
  }

  ghost predicate NodeInv(s: State) {
    && (forall n :: n in s.registry.nodes ==>
          && s.registry.nodes[n].credential.node == n
          && (n, s.registry.nodes[n].credential.serial) in s.serials
          && (!s.registry.nodes[n].revoked ==> s.registry.nodes[n].credential.epoch == 1)
          && (s.registry.nodes[n].revoked <==> n in s.withdrawn))
    && (forall n :: n in s.withdrawn ==> n in s.registry.nodes)
  }

  ghost predicate RequestInv(s: State) {
    forall p :: p in s.requests && s.requests[p].Succeeded? ==> Entitled(s, s.requests[p].a, s.requests[p].enrolled.n)
  }

  /** The attempt knows the secret of a token that is bound to node n and the attempt's key. */
  ghost predicate Entitled(s: State, a: Attempt, n: NodeID) {
    && a.t in s.bound && a.t in s.created && s.bound[a.t] == Binding(n, a.publicKey)
    && a.supplied.digest == s.created[a.t].digest
  }

  /** A consumed token stays open for replay until its node is finalized or withdrawn. */
  ghost predicate OpenInv(s: State) {
    && (forall n :: n in s.finalized ==> n in s.registry.nodes)
    && (forall t :: t in s.bound && s.bound[t].n !in s.finalized && s.bound[t].n !in s.withdrawn ==> t in s.registry.consumedNode)
    && (forall t :: t in s.registry.consumedNode ==> s.registry.consumedNode[t] !in s.finalized)
  }

  /** A node keeps the certificate it was enrolled with, which belongs to its credential
      exactly until the first renewal. */
  ghost predicate CertificateInv(s: State) {
    && (forall n :: n in s.renewed ==> n in s.registry.nodes)
    && (forall c :: c in s.certificates ==> c.node in s.registry.nodes && (c.node, c.serial) in s.serials)
    && (forall n :: n in s.registry.nodes ==> s.registry.nodes[n].certificate in s.issued)
    && (forall n :: n in s.registry.nodes && !s.registry.nodes[n].revoked ==>
          && s.registry.nodes[n].credential in s.certificates
          && (s.certificates[s.registry.nodes[n].credential] == s.registry.nodes[n].certificate <==> n !in s.renewed))
  }

  ghost predicate Inv(s: State) {
    TokenInv(s) && NodeInv(s) && RequestInv(s) && OpenInv(s) && CertificateInv(s)
  }

  lemma CommitKeepsTokens(s: State, a: Attempt)
    requires TokenInv(s)
    ensures TokenInv(Committed(s, a))
  {
  }

  lemma CommitKeepsNodes(s: State, a: Attempt)
    requires NodeInv(s)
    ensures NodeInv(Committed(s, a))
  {
  }

  lemma CommitKeepsRequests(s: State, a: Attempt)
    requires TokenInv(s) && RequestInv(s)
    ensures RequestInv(Committed(s, a))
  {
    if ConsumeEnrollment(s.registry, a.t, a.supplied, a.n, NodeOf(a)).result.Ok? {
      assert a.t !in s.bound;
      hide TokenInv;
    }
  }

  lemma CommitKeepsOpen(s: State, a: Attempt)
    requires OpenInv(s)
    ensures OpenInv(Committed(s, a))
  {
  }

  lemma CommitKeepsCertificates(s: State, a: Attempt)
    requires CertificateInv(s)
    ensures CertificateInv(Committed(s, a))
  {
  }

  lemma CommitKeepsInv(s: State, a: Attempt)
    requires Inv(s)
    ensures Inv(Committed(s, a))
  {
    CommitKeepsTokens(s, a);
    CommitKeepsNodes(s, a);
    CommitKeepsRequests(s, a);
    CommitKeepsOpen(s, a);
    CommitKeepsCertificates(s, a);
    hide TokenInv, NodeInv, RequestInv, OpenInv, CertificateInv, Committed;
  }

  lemma MoveKeepsInv(s: State, p: RequestID, stage: Stage)
    requires Inv(s)
    requires stage.Succeeded? ==> Entitled(s, stage.a, stage.enrolled.n)
    ensures Inv(Move(s, p, stage))
  {
  }

  lemma CommitEntitles(s: State, a: Attempt)
    requires TokenInv(s) && ConsumeEnrollment(s.registry, a.t, a.supplied, a.n, NodeOf(a)).result.Ok?
    ensures Entitled(Committed(s, a), a, a.n)
  {
  }

  lemma ReplayIsEntitled(s: State, a: Attempt)
    requires TokenInv(s) && ReplayEnrollment(s.registry, a.t, a.supplied, a.publicKey).Ok?
    ensures Entitled(s, a, ReplayEnrollment(s.registry, a.t, a.supplied, a.publicKey).value.0)
  {
  }

  lemma ProceedKeepsInv(s: State, p: RequestID, stage: Stage, fault: Fault)
    requires Inv(s)
    requires stage.Succeeded? ==> Entitled(s, stage.a, stage.enrolled.n)
    ensures Inv(Proceed(s, p, stage, fault))
  {
    hide TokenInv, NodeInv, RequestInv, OpenInv, CertificateInv, ConsumeEnrollment, ReplayEnrollment, Entitled;
    match stage
    case Consuming(a) =>
      CommitKeepsInv(s, a);
      var result := ConsumeUnder(s.registry, a, fault).result;
      if result.Ok? { CommitEntitles(s, a); }
      MoveKeepsInv(if fault.Fails? then s else Committed(s, a), p, AfterConsuming(a, result));
    case Replaying(a, error) =>
      var replay := ReplayUnder(s.registry, a, fault);
      if replay.Ok? { ReplayIsEntitled(s, a); }
      MoveKeepsInv(s, p, AfterReplaying(a, AnswerOf(error, replay)));
    case Succeeded(_, _) =>
    case Refused(_) =>
  }

  lemma CreateKeepsInv(s: State, t: TokenID, token: Token)
    requires Inv(s) && t !in s.created
    ensures Inv(Step(s, Create(t, token)))
  {
  }

  lemma RenewKeepsCertificates(s: State, n: NodeID, expected: Credential, replacement: Credential, certificate: nat, now: int)
    requires NodeInv(s) && CertificateInv(s) && (n, replacement.serial) !in s.serials && certificate !in s.issued
    ensures CertificateInv(Renewed(s, n, expected, replacement, certificate, now))
  {
    assert replacement.node == n ==> replacement !in s.certificates;
  }

  lemma RenewKeepsInv(s: State, n: NodeID, expected: Credential, replacement: Credential, certificate: nat, now: int)
    requires Inv(s) && (n, replacement.serial) !in s.serials && certificate !in s.issued
    ensures Inv(Renewed(s, n, expected, replacement, certificate, now))
  {
    RenewKeepsCertificates(s, n, expected, replacement, certificate, now);
    RenewKeepsTokens(s, n, expected, replacement, certificate, now);
    RenewKeepsNodes(s, n, expected, replacement, certificate, now);
    hide TokenInv, NodeInv, RequestInv, OpenInv, CertificateInv, Renewed;
  }

  lemma RenewKeepsTokens(s: State, n: NodeID, expected: Credential, replacement: Credential, certificate: nat, now: int)
    requires TokenInv(s) && RequestInv(s)
    ensures var next := Renewed(s, n, expected, replacement, certificate, now); TokenInv(next) && RequestInv(next)
  {
  }

  lemma RenewKeepsNodes(s: State, n: NodeID, expected: Credential, replacement: Credential, certificate: nat, now: int)
    requires NodeInv(s) && OpenInv(s)
    ensures var next := Renewed(s, n, expected, replacement, certificate, now); NodeInv(next) && OpenInv(next)
  {
  }

  lemma RevokeKeepsInv(s: State, n: NodeID)
    requires Inv(s)
    ensures Inv(Step(s, Revoke(n)))
  {
    RevokeKeepsTokens(s, n);
    RevokeKeepsNodes(s, n);
    hide TokenInv, NodeInv, RequestInv, OpenInv, CertificateInv, RevokeNode;
  }

  lemma RevokeKeepsTokens(s: State, n: NodeID)
    requires TokenInv(s) && RequestInv(s)
    ensures TokenInv(Step(s, Revoke(n))) && RequestInv(Step(s, Revoke(n)))
  {
  }

  lemma RevokeKeepsNodes(s: State, n: NodeID)
    requires NodeInv(s) && OpenInv(s) && CertificateInv(s)
    ensures NodeInv(Step(s, Revoke(n))) && OpenInv(Step(s, Revoke(n))) && CertificateInv(Step(s, Revoke(n)))
  {
  }

  lemma FinalizeKeepsInv(s: State, c: Credential)
    requires Inv(s)
    ensures Inv(Step(s, Finalize(c)))
  {
    FinalizeKeepsTokens(s, c);
    FinalizeKeepsNodes(s.registry, c);
    FinalizeKeepsOpen(s, c);
    hide TokenInv, OpenInv, FinalizeEnrollment;
  }

  lemma FinalizeKeepsNodes(g: Registry, c: Credential)
    ensures FinalizeEnrollment(g, c).registry.nodes == g.nodes
  {
  }

  lemma FinalizeKeepsTokens(s: State, c: Credential)
    requires TokenInv(s)
    ensures TokenInv(Step(s, Finalize(c)))
  {
  }

  lemma FinalizeKeepsOpen(s: State, c: Credential)
    requires TokenInv(s) && OpenInv(s)
    ensures OpenInv(Step(s, Finalize(c)))
  {
  }

  lemma CancelKeepsInv(s: State, t: TokenID)
    requires Inv(s)
    ensures Inv(Step(s, Cancel(t)))
  {
    CancelKeepsTokens(s, t);
    CancelKeepsNodes(s, t);
    CancelKeepsOpen(s, t);
    CancelKeepsCertificates(s, t);
    hide TokenInv, NodeInv, OpenInv, CertificateInv, CancelToken;
  }

  lemma CancelKeepsTokens(s: State, t: TokenID)
    requires TokenInv(s)
    ensures TokenInv(Step(s, Cancel(t)))
  {
  }

  lemma CancelKeepsNodes(s: State, t: TokenID)
    requires NodeInv(s)
    ensures NodeInv(Step(s, Cancel(t)))
  {
  }

  lemma CancelKeepsOpen(s: State, t: TokenID)
    requires TokenInv(s) && OpenInv(s)
    ensures OpenInv(Step(s, Cancel(t)))
  {
  }

  lemma CancelKeepsCertificates(s: State, t: TokenID)
    requires CertificateInv(s)
    ensures CertificateInv(Step(s, Cancel(t)))
  {
  }

  lemma StepKeepsInv(s: State, e: Event)
    requires Inv(s) && Enabled(s, e)
    ensures Inv(Step(s, e))
  {
    if e.Continue? && s.requests[e.p].Succeeded? {
      assert Entitled(s, s.requests[e.p].a, s.requests[e.p].enrolled.n);
    }
    hide Inv, Proceed, Entitled, Renewed;
    match e
    case Create(t, token) => CreateKeepsInv(s, t, token);
    case Arrive(p, a) => MoveKeepsInv(s, p, Consuming(a));
    case Continue(p, fault) => ProceedKeepsInv(s, p, s.requests[p], fault);
    case Finalize(c) => FinalizeKeepsInv(s, c);
    case Cancel(t) => CancelKeepsInv(s, t);
    case Renew(n, expected, replacement, certificate, now) =>
      RenewKeepsInv(s, n, expected, replacement, certificate, now);
    case Revoke(n) => RevokeKeepsInv(s, n);
  }

  lemma {:induction false} RunKeepsInv(states: seq<State>, events: seq<Event>, i: nat)
    requires IsRun(states, events) && i < |states|
    ensures Inv(states[i])
  {
    hide Step, Enabled;
    if i > 0 {
      RunKeepsInv(states, events, i - 1);
      hide Inv;
      StepKeepsInv(states[i - 1], events[i - 1]);
    }
  }

  // ------------------------------------------------------------------ main results

  /** All successful enrollments with one token return one node, to one public key, and
      only to a caller who knows the secret the token was created with. */
  lemma OneNodePerCode(states: seq<State>, events: seq<Event>, i: nat, p: RequestID, q: RequestID)
    requires IsRun(states, events) && i < |states|
    requires p in states[i].requests && q in states[i].requests
    requires states[i].requests[p].Succeeded? && states[i].requests[q].Succeeded?
    requires states[i].requests[p].a.t == states[i].requests[q].a.t
    ensures states[i].requests[p].enrolled.n == states[i].requests[q].enrolled.n
    ensures states[i].requests[p].a.publicKey == states[i].requests[q].a.publicKey
    ensures var a := states[i].requests[p].a;
      a.t in states[i].created && a.supplied.digest == states[i].created[a.t].digest
  {
    RunKeepsInv(states, events, i);
  }

  lemma StepKeepsWithdrawn(s: State, e: Event, n: NodeID)
    requires n in s.withdrawn
    ensures n in Step(s, e).withdrawn
  {
    hide ConsumeEnrollment, ReplayEnrollment, RenewCredential, FinalizeEnrollment;
  }

  lemma {:induction false} WithdrawnStays(states: seq<State>, events: seq<Event>, i: nat, j: nat, n: NodeID)
    requires IsRun(states, events) && i <= j < |states| && n in states[i].withdrawn
    ensures n in states[j].withdrawn
    decreases j
  {
    hide Step, Enabled;
    if i < j {
      WithdrawnStays(states, events, i, j - 1, n);
      assert states[j] == Step(states[j - 1], events[j - 1]);
      StepKeepsWithdrawn(states[j - 1], events[j - 1], n);
    }
  }

  /** Once a node was revoked, or cancelled with its token, no credential for it is
      authorized, renewed, or handed out again. */
  lemma WithdrawnForGood(states: seq<State>, events: seq<Event>, i: nat, j: nat, c: Credential,
      replacement: Credential, t: TokenID, token: Token, key: nat, now: int)
    requires IsRun(states, events) && i <= j < |states| && c.node in states[i].withdrawn
    ensures var g := states[j].registry;
      && !Authorized(g, c, now)
      && RenewCredential(g, c.node, c, replacement, now).result.Err?
      && FinalizeEnrollment(g, c).result.Err?
      && (ReplayEnrollment(g, t, token, key).Ok? ==> ReplayEnrollment(g, t, token, key).value.0 != c.node)
      && (forall node :: ConsumeEnrollment(g, t, token, c.node, node).result.Err?)
  {
    RunKeepsInv(states, events, j);
    WithdrawnStays(states, events, i, j, c.node);
  }

  /** Revoking a node that enrollment made always succeeds while it is not yet revoked: its
      credential epoch is still one, whatever was renewed. */
  lemma RevocationSucceeds(states: seq<State>, events: seq<Event>, i: nat, n: NodeID)
    requires IsRun(states, events) && i < |states|
    requires n in states[i].registry.nodes && n !in states[i].withdrawn
    ensures RevokeNode(states[i].registry, n).result.Ok?
    ensures forall c: Credential, now :: c.node == n ==> !Authorized(RevokeNode(states[i].registry, n).registry, c, now)
  {
    RunKeepsInv(states, events, i);
  }

  /** The registry by itself refuses exactly at the last epoch, and then leaves the node as
      it is: such a node could not be revoked. */
  lemma LastEpochCannotBeRevoked(g: Registry, n: NodeID)
    requires n in g.nodes
    ensures RevokeNode(g, n).result.Err? <==> g.nodes[n].credential.epoch == MAX_UINT64
    ensures RevokeNode(g, n).result.Err? ==> RevokeNode(g, n).registry == g
    ensures RevokeNode(g, n).result.Ok? ==> RevokeNode(g, n).registry.nodes[n].revoked
  {
  }

  // ------------------------------------------------------- superseded credentials

  /** The credential was current for its node and has been replaced. */
  predicate Superseded(s: State, c: Credential) {
    && (c.node, c.serial) in s.serials
    && (c.node in s.registry.nodes ==> s.registry.nodes[c.node].credential.serial != c.serial)
  }

  lemma StepKeepsSuperseded(s: State, e: Event, c: Credential)
    requires Inv(s) && Enabled(s, e) && Superseded(s, c) && c.node in s.registry.nodes
    ensures Superseded(Step(s, e), c) && c.node in Step(s, e).registry.nodes
  {
    hide Inv, FinalizeEnrollment, ReplayEnrollment;
    FinalizeKeepsNodes(s.registry, if e.Finalize? then e.c else c);
  }

  lemma {:induction false} SupersededStays(states: seq<State>, events: seq<Event>, i: nat, j: nat, c: Credential)
    requires IsRun(states, events) && i <= j < |states|
    requires Superseded(states[i], c) && c.node in states[i].registry.nodes
    ensures Superseded(states[j], c) && c.node in states[j].registry.nodes
    decreases j
  {
    hide Step, Enabled, Superseded;
    if i < j {
      SupersededStays(states, events, i, j - 1, c);
      RunKeepsInv(states, events, j - 1);
      hide Inv;
      StepKeepsSuperseded(states[j - 1], events[j - 1], c);
    }
  }

  /** A credential replaced by a renewal is never authorized again, and at any time at most
      one credential of a node is. */
  lemma RenewedCredentialIsDead(states: seq<State>, events: seq<Event>, i: nat, j: nat, c: Credential, now: int)
    requires IsRun(states, events) && i < j < |states|
    requires events[i].Renew? && events[i].expected == c && events[i].n == c.node
    requires RenewCredential(states[i].registry, c.node, c, events[i].replacement, events[i].now).result.Ok?
    ensures !Authorized(states[j].registry, c, now)
    ensures forall d: Credential, e: Credential :: d.node == e.node && Authorized(states[j].registry, d, now) && Authorized(states[j].registry, e, now) ==> d == e
  {
    RunKeepsInv(states, events, i);
    assert states[i + 1] == Step(states[i], events[i]);
    assert Superseded(states[i + 1], c);
    SupersededStays(states, events, i + 1, j, c);
  }

  // ------------------------------------------------------------------ limits

  /** With a token identifier used again after it was consumed, the same code enrolls a
      second node. */
  lemma ReusedTokenEnrollsTwice(g: Registry, t: TokenID, token: Token, a: Attempt, b: Attempt)
    requires t in g.tokens && g.tokens[t] == token
    requires a.t == b.t == t && a.supplied == b.supplied == token && a.n != b.n && a.n !in g.nodes && b.n !in g.nodes
    requires a.serial != 0 && b.serial != 0
    ensures var first := ConsumeEnrollment(g, t, token, a.n, NodeOf(a));
      var again := CreateToken(first.registry, t, token);
      first.result.Ok? && again.result.Ok? && ConsumeEnrollment(again.registry, t, token, b.n, NodeOf(b)).result.Ok?
  {
  }

  // ---------------------------------------------------------- lost answers and renewals

  /** A retry with the same secret and key gets the node exactly until the enrollment is
      finalized or the node withdrawn; in particular after a consumption whose answer the
      store lost. */
  lemma RetrySucceedsWhileOpen(states: seq<State>, events: seq<Event>, i: nat, t: TokenID, supplied: Token, key: nat)
    requires IsRun(states, events) && i < |states| && t in states[i].bound
    ensures var s := states[i];
      && t in s.created
      && (ReplayEnrollment(s.registry, t, supplied, key).Ok? <==>
          && supplied.digest == s.created[t].digest && key == s.bound[t].publicKey
          && s.bound[t].n !in s.finalized && s.bound[t].n !in s.withdrawn)
    ensures var r := ReplayEnrollment(states[i].registry, t, supplied, key); r.Ok? ==> r.value.0 == states[i].bound[t].n
  {
    RunKeepsInv(states, events, i);
  }

  /** The event exchanges token t for node n, whether or not the caller learns of it. */
  predicate Consumes(s: State, e: Event, t: TokenID, n: NodeID) {
    && e.Continue? && e.p in s.requests && s.requests[e.p].Consuming? && !e.fault.Fails?
    && var a := s.requests[e.p].a;
    && a.t == t && a.n == n && ConsumeEnrollment(s.registry, t, a.supplied, n, NodeOf(a)).result.Ok?
  }

  /** The event renews the credential of node n. */
  predicate Renews(s: State, e: Event, n: NodeID) {
    e.Renew? && e.n == n && RenewCredential(s.registry, n, e.expected, e.replacement, e.now).result.Ok?
  }

  lemma StepBinds(s: State, e: Event, t: TokenID)
    requires TokenInv(s) && t in Step(s, e).bound
    ensures t in s.bound ==> Step(s, e).bound[t] == s.bound[t]
    ensures t !in s.bound ==> Consumes(s, e, t, Step(s, e).bound[t].n)
  {
    hide FinalizeEnrollment, CancelToken, RenewCredential, RevokeNode, ReplayEnrollment;
  }

  lemma {:induction false} BoundWasConsumed(states: seq<State>, events: seq<Event>, i: nat, t: TokenID) returns (c: nat)
    requires IsRun(states, events) && i < |states| && t in states[i].bound
    ensures c < i && Consumes(states[c], events[c], t, states[i].bound[t].n)
  {
    hide Step, Enabled, Consumes;
    RunKeepsInv(states, events, i - 1);
    StepBinds(states[i - 1], events[i - 1], t);
    if t in states[i - 1].bound {
      c := BoundWasConsumed(states, events, i - 1, t);
    } else {
      c := i - 1;
    }
  }

  lemma StepKeepsSucceeded(s: State, e: Event, p: RequestID)
    requires Enabled(s, e) && p in Step(s, e).requests && Step(s, e).requests[p].Succeeded?
    ensures p in s.requests && s.requests[p].Succeeded? ==> Step(s, e).requests[p] == s.requests[p]
    ensures !(p in s.requests && s.requests[p].Succeeded?) ==> e.Continue? && e.p == p && p in s.requests
  {
    hide FinalizeEnrollment, CancelToken, RenewCredential, RevokeNode, ReplayEnrollment, ConsumeEnrollment;
  }

  lemma {:induction false} SucceededWasAnswered(states: seq<State>, events: seq<Event>, i: nat, p: RequestID) returns (r: nat)
    requires IsRun(states, events) && i < |states| && p in states[i].requests && states[i].requests[p].Succeeded?
    ensures r < i && events[r].Continue? && events[r].p == p
    ensures p in states[r].requests && !states[r].requests[p].Succeeded?
    ensures p in states[r + 1].requests && states[r + 1].requests[p] == states[i].requests[p]
  {
    hide Step, Enabled;
    assert i > 0;
    assert Enabled(states[i - 1], events[i - 1]) && states[i] == Step(states[i - 1], events[i - 1]);
    StepKeepsSucceeded(states[i - 1], events[i - 1], p);
    if p in states[i - 1].requests && states[i - 1].requests[p].Succeeded? {
      r := SucceededWasAnswered(states, events, i - 1, p);
    } else {
      r := i - 1;
    }
  }

  /** An answer reports the node as it is when the request is answered. */
  lemma AnswerIsCurrent(s: State, p: RequestID, fault: Fault)
    requires p in s.requests && !s.requests[p].Succeeded?
    requires Step(s, Continue(p, fault)).requests[p].Succeeded?
    ensures var next := Step(s, Continue(p, fault));
      var x := next.requests[p].enrolled;
      && x.n in next.registry.nodes && !next.registry.nodes[x.n].revoked && x == EnrolledAs(x.n, next.registry.nodes[x.n])
      && next.renewed == s.renewed
  {
  }

  lemma StepRenews(s: State, e: Event, n: NodeID)
    ensures n in Step(s, e).renewed <==> n in s.renewed || Renews(s, e, n)
  {
    hide ConsumeEnrollment, FinalizeEnrollment, CancelToken, RevokeNode, ReplayEnrollment;
  }

  lemma {:induction false} RenewedWasRenewed(states: seq<State>, events: seq<Event>, i: nat, n: NodeID)
    requires IsRun(states, events) && i < |states|
    ensures n in states[i].renewed <==> exists k :: 0 <= k < i && Renews(states[k], events[k], n)
  {
    hide Step, Enabled, Renews;
    if i > 0 {
      RenewedWasRenewed(states, events, i - 1, n);
      assert states[i] == Step(states[i - 1], events[i - 1]);
      StepRenews(states[i - 1], events[i - 1], n);
    }
  }

  lemma StepKeepsNodes(s: State, e: Event, n: NodeID)
    requires n in s.registry.nodes
    ensures n in Step(s, e).registry.nodes
  {
    if e.Finalize? { FinalizeKeepsNodes(s.registry, e.c); }
    hide FinalizeEnrollment, ReplayEnrollment;
  }

  lemma {:induction false} NodesStay(states: seq<State>, events: seq<Event>, i: nat, j: nat, n: NodeID)
    requires IsRun(states, events) && i <= j < |states| && n in states[i].registry.nodes
    ensures n in states[j].registry.nodes
    decreases j
  {
    hide Step, Enabled;
    if i < j {
      NodesStay(states, events, i, j - 1, n);
      assert states[j] == Step(states[j - 1], events[j - 1]);
      StepKeepsNodes(states[j - 1], events[j - 1], n);
    }
  }

  lemma StepKeepsCertificates(s: State, e: Event, c: Credential)
    requires CertificateInv(s) && Enabled(s, e) && c in s.certificates
    ensures c in Step(s, e).certificates && Step(s, e).certificates[c] == s.certificates[c]
  {
    hide FinalizeEnrollment, CancelToken, RevokeNode, ReplayEnrollment;
  }

  lemma {:induction false} CertificatesStay(states: seq<State>, events: seq<Event>, i: nat, j: nat, c: Credential)
    requires IsRun(states, events) && i <= j < |states| && c in states[i].certificates
    ensures c in states[j].certificates && states[j].certificates[c] == states[i].certificates[c]
    decreases j
  {
    hide Step, Enabled;
    if i < j {
      CertificatesStay(states, events, i, j - 1, c);
      RunKeepsInv(states, events, j - 1);
      assert Enabled(states[j - 1], events[j - 1]) && states[j] == Step(states[j - 1], events[j - 1]);
      StepKeepsCertificates(states[j - 1], events[j - 1], c);
    }
  }

  /** A successful enrollment pairs a credential with the certificate it was issued with if
      and only if no renewal of the node succeeded between the consumption of the token, at
      event c, and the answer, at event r. */
  lemma AnswerPairsUnlessRenewed(states: seq<State>, events: seq<Event>, i: nat, p: RequestID) returns (c: nat, r: nat)
    requires IsRun(states, events) && i < |states|
    requires p in states[i].requests && states[i].requests[p].Succeeded?
    ensures c <= r < i
    ensures var stage := states[i].requests[p];
      var x := stage.enrolled;
      && Consumes(states[c], events[c], stage.a.t, x.n)
      && events[r].Continue? && events[r].p == p
      && p in states[r].requests && !states[r].requests[p].Succeeded?
      && p in states[r + 1].requests && states[r + 1].requests[p] == stage
      && x.credential in states[i].certificates
      && (states[i].certificates[x.credential] == x.certificate <==>
          !exists k :: c <= k < r && Renews(states[k], events[k], x.n))
  {
    var stage := states[i].requests[p];
    var x := stage.enrolled;
    r := SucceededWasAnswered(states, events, i, p);
    RunKeepsInv(states, events, r + 1);
    c := BoundWasConsumed(states, events, r + 1, stage.a.t);
    assert states[r + 1] == Step(states[r], events[r]);
    AnswerIsCurrent(states[r], p, events[r].fault);
    CertificatesStay(states, events, r + 1, i, x.credential);
    RenewedWasRenewed(states, events, r, x.n);
    forall k | 0 <= k < r && Renews(states[k], events[k], x.n)
      ensures c <= k
    {
      if k < c { NodesStay(states, events, k, c, x.n); }
    }
  }

  // -------------------------------------------------------------- answers over a run

  /** The token was created, and neither consumed nor cancelled since. */
  ghost predicate OpenToken(states: seq<State>, events: seq<Event>, i: nat, t: TokenID)
    requires |states| == |events| + 1 && i < |states|
  {
    && t in states[i].created && t !in states[i].bound
    && !exists k :: 0 <= k < i && events[k] == Cancel(t) && t in states[k].created
  }

  lemma StepMovesToken(s: State, e: Event, t: TokenID)
    requires TokenInv(s) && Enabled(s, e)
    ensures var next := Step(s, e);
      && (t in s.created ==> t in next.created && next.created[t] == s.created[t])
      && (t in s.bound ==> t in next.bound)
      && (t in next.created && t !in s.created ==> e.Create? && e.t == t && t in next.registry.tokens && t !in next.bound)
      && (t in s.created ==> (t in next.registry.tokens <==> t in s.registry.tokens && t !in next.bound && e != Cancel(t)))
  {
    hide ReplayEnrollment;
  }

  /** The registry holds exactly the open tokens, as they were created. */
  lemma {:induction false} HeldTokenIsOpen(states: seq<State>, events: seq<Event>, i: nat, t: TokenID)
    requires IsRun(states, events) && i < |states|
    ensures t in states[i].registry.tokens <==> OpenToken(states, events, i, t)
    ensures t in states[i].registry.tokens ==> states[i].registry.tokens[t] == states[i].created[t]
  {
    hide Step, Enabled, Inv;
    if i > 0 {
      HeldTokenIsOpen(states, events, i - 1, t);
      RunKeepsInv(states, events, i - 1);
      RunKeepsInv(states, events, i);
      InvGivesTokens(states[i - 1]);
      InvGivesTokens(states[i]);
      assert Enabled(states[i - 1], events[i - 1]) && states[i] == Step(states[i - 1], events[i - 1]);
      StepMovesToken(states[i - 1], events[i - 1], t);
      if t in states[i].created && t !in states[i - 1].created {
        forall k | 0 <= k < i ensures t !in states[k].created { CreatedStays(states, events, k, i - 1, t); }
      }
      hide TokenInv;
      assert OpenToken(states, events, i, t) && t in states[i - 1].created ==> OpenToken(states, events, i - 1, t);
    }
  }

  lemma InvGivesTokens(s: State)
    requires Inv(s)
    ensures TokenInv(s)
  {
  }

  lemma {:induction false} CreatedStays(states: seq<State>, events: seq<Event>, k: nat, i: nat, t: TokenID)
    requires IsRun(states, events) && k <= i < |states| && t !in states[i].created
    ensures t !in states[k].created
    decreases i
  {
    if k < i {
      RunKeepsInv(states, events, i - 1);
      assert Enabled(states[i - 1], events[i - 1]) && states[i] == Step(states[i - 1], events[i - 1]);
      InvGivesTokens(states[i - 1]);
      StepMovesToken(states[i - 1], events[i - 1], t);
      CreatedStays(states, events, k, i - 1, t);
    }
  }

  /** An attempt is answered at once exactly with an open token of this controller epoch, its
      secret, and an identity that is new and complete; then node and token change hands in
      one step. Otherwise the registry stays as it was and the attempt goes on to replay. */
  lemma ConsumptionAnswers(states: seq<State>, events: seq<Event>, i: nat, p: RequestID, a: Attempt)
    requires IsRun(states, events) && i < |events| && events[i] == Continue(p, NoFault)
    requires p in states[i].requests && states[i].requests[p] == Consuming(a)
    ensures var s, next := states[i], states[i + 1];
      var entitled := OpenToken(states, events, i, a.t) && s.created[a.t] == a.supplied && a.n !in s.registry.nodes && a.serial != 0;
      && p in next.requests
      && (entitled ==>
            && next.requests[p] == Succeeded(a, Enrolled(a.n, Credential(a.n, a.serial, 1, a.notBefore, a.notAfter), a.certificate))
            && next.registry.nodes == s.registry.nodes[a.n := NodeOf(a)]
            && next.registry.tokens == s.registry.tokens - {a.t} && a.t in next.bound)
      && (!entitled ==> next.registry == s.registry && next.requests[p].Replaying? && next.bound == s.bound)
  {
    HeldTokenIsOpen(states, events, i, a.t);
    assert states[i + 1] == Step(states[i], events[i]);
    hide IsRun, OpenToken;
  }

  /** An unused token that is cancelled never enrolls anyone again, and no node changes; a
      consumed one takes its node with it until it is finalized; any other cancellation
      changes nothing. */
  lemma CancellationAnswers(states: seq<State>, events: seq<Event>, i: nat, t: TokenID, j: nat)
    requires IsRun(states, events) && i < |events| && events[i] == Cancel(t) && i < j < |states|
    ensures var s, next := states[i], states[i + 1];
      && (OpenToken(states, events, i, t) ==>
            && !OpenToken(states, events, j, t) && t !in states[j].registry.tokens && next.registry.nodes == s.registry.nodes)
      && (t in s.bound && s.bound[t].n !in s.finalized && s.bound[t].n !in s.withdrawn ==> s.bound[t].n in next.withdrawn)
      && (!OpenToken(states, events, i, t) && (t !in s.bound || s.bound[t].n in s.finalized) ==> next.registry == s.registry)
      && next.withdrawn <= s.withdrawn + (if t in s.bound then {s.bound[t].n} else {})
  {
    HeldTokenIsOpen(states, events, i, t);
    HeldTokenIsOpen(states, events, j, t);
    RunKeepsInv(states, events, i);
    assert states[i + 1] == Step(states[i], events[i]);
    if OpenToken(states, events, i, t) {
      assert events[i] == Cancel(t) && t in states[i].created;
      assert !OpenToken(states, events, j, t);
    }
    hide IsRun, OpenToken;
  }

  /** A node whose current credential is presented gives up the replay of its enrollment;
      nobody else's enrollment is finalized by it, and nothing else changes. */
  lemma FinalizationAnswers(states: seq<State>, events: seq<Event>, i: nat, c: Credential)
    requires IsRun(states, events) && i < |events| && events[i] == Finalize(c)
    ensures var s, next := states[i], states[i + 1];
      var current := c.node in s.registry.nodes && c.node !in s.withdrawn && s.registry.nodes[c.node].credential == c;
      && next.finalized == (if current then s.finalized + {c.node} else s.finalized)
      && next.registry.nodes == s.registry.nodes && next.registry.tokens == s.registry.tokens
      && (!current ==> next.registry == s.registry)
      && forall t :: t in s.registry.consumedNode && s.registry.consumedNode[t] != c.node ==> t in next.registry.consumedNode
  {
    RunKeepsInv(states, events, i);
    assert states[i + 1] == Step(states[i], events[i]);
    hide IsRun;
  }

  /** A renewal needs the credential that is authorized now, and a complete replacement of
      the same node and epoch with another serial. It then takes effect alone. */
  lemma RenewalAnswers(g: Registry, n: NodeID, expected: Credential, replacement: Credential, now: int, d: Credential, later: int)
    requires forall m :: m in g.nodes ==> g.nodes[m].credential.node == m
    ensures var o := RenewCredential(g, n, expected, replacement, now);
      var renews := && expected.node == n && Authorized(g, expected, now)
                    && replacement.node == n && replacement.epoch == expected.epoch && replacement.serial != expected.serial
                    && replacement.notBefore < replacement.notAfter;
      && (o.result.Ok? <==> renews)
      && (n !in g.nodes <==> o.result == Err(NodeNotFound))
      && (renews && d.node == n ==> (Authorized(o.registry, d, later) <==> d == replacement && d.notBefore <= later < d.notAfter))
      && (!renews || d.node != n ==> (Authorized(o.registry, d, later) <==> Authorized(g, d, later)))
      && (renews ==> o.registry.nodes[n] == g.nodes[n].(credential := replacement))
      && (!renews ==> o.registry == g)
  {
  }

  /** A revocation ends every credential of its node and of no other. */
  lemma RevocationAnswers(g: Registry, n: NodeID, d: Credential, now: int)
    ensures var o := RevokeNode(g, n);
      && (o.result.Ok? <==> n in g.nodes && g.nodes[n].credential.epoch != MAX_UINT64)
      && (n !in g.nodes <==> o.result == Err(NodeNotFound))
      && (o.result.Ok? ==>
            && o.result.value == g.nodes[n].credential.(epoch := g.nodes[n].credential.epoch + 1)
            && (d.node == n ==> !Authorized(o.registry, d, now))
            && (d.node != n ==> (Authorized(o.registry, d, now) <==> Authorized(g, d, now))))
      && (o.result.Err? ==> o.registry == g)
  {
  }

  /** What a caller is told: the reasons a caller can remove are rejections, all others are
      outages, and an outage of the replay outranks the rejection by the consumption. */
  lemma FailuresTold(error: RegistryError, replay: Result<(NodeID, Node), RegistryError>)
    ensures FailureOf(error) == Rejected <==>
      error in {TokenNotFound, TokenEpochMismatch, TokenSecretMismatch, CredentialRejected}
    ensures AnswerOf(error, replay) == Err(Rejected) <==>
      && replay.Err?
      && error in {TokenNotFound, TokenEpochMismatch, TokenSecretMismatch, CredentialRejected}
      && replay.error in {TokenNotFound, TokenEpochMismatch, TokenSecretMismatch, CredentialRejected}
  {
  }

  /** The reasons the registry gives for exchanging nothing. */
  lemma ExchangeRefusalsNameTheirReason(g: Registry, t: TokenID, supplied: Token, n: NodeID, node: Node, key: nat)
    ensures var o := CreateToken(g, t, supplied);
      if t in g.tokens then o == Outcome(g, Err(TokenNotFound)) else o.result.Ok? && o.registry.tokens == g.tokens[t := supplied]
    ensures var r := ConsumeEnrollment(g, t, supplied, n, node).result;
      var matches := t in g.tokens && g.tokens[t] == supplied;
      && (r == Err(TokenNotFound) <==> t !in g.tokens)
      && (r == Err(TokenEpochMismatch) <==> t in g.tokens && g.tokens[t].epoch != supplied.epoch)
      && (r == Err(TokenSecretMismatch) <==> t in g.tokens && g.tokens[t].epoch == supplied.epoch && g.tokens[t].digest != supplied.digest)
      && (r == Err(NodeExists) <==> matches && n in g.nodes)
      && (r == Err(CredentialRejected) <==>
            matches && n !in g.nodes && (node.credential.node != n || node.credential.serial == 0 || node.credential.epoch == 0))
      && (r.Err? ==> ConsumeEnrollment(g, t, supplied, n, node).registry == g)
    ensures var r := ReplayEnrollment(g, t, supplied, key); r.Err? ==> r.error == TokenNotFound
  {
  }

  /** The reasons for changing no node. */
  lemma NodeRefusalsNameTheirReason(g: Registry, t: TokenID, n: NodeID, c: Credential, d: Credential, now: int)
    ensures var r := FinalizeEnrollment(g, c).result; r.Err? ==> r.error == CredentialRejected
    ensures var r := RenewCredential(g, n, c, d, now).result; r.Err? && n in g.nodes ==> r.error == CredentialRejected
    ensures var r := RevokeNode(g, n).result; r.Err? && n in g.nodes ==> r.error == CredentialRejected
    ensures var r := CancelToken(g, t).result;
      var taken := t !in g.tokens && t in g.consumedNode && g.consumedNode[t] in g.nodes;
      && (r.Ok? <==> t in g.tokens || (taken && g.nodes[g.consumedNode[t]].credential.epoch != MAX_UINT64))
      && (r == Err(TokenNotFound) <==> t !in g.tokens && !taken)
      && (r == Err(CredentialRejected) <==> taken && g.nodes[g.consumedNode[t]].credential.epoch == MAX_UINT64)
      && (r.Err? ==> CancelToken(g, t).registry == g)
  {
  }

  /** An exchange whose answer the store loses has happened: the request goes on to replay,
      which gives it the result; a store that fails before it changes nothing, and one that
      fails the replay makes it an outage. */
  lemma LostAnswerIsRecovered(states: seq<State>, events: seq<Event>, i: nat, p: RequestID, a: Attempt)
    requires IsRun(states, events) && i < |events| && p in states[i].requests
    requires events[i].Continue? && events[i].p == p
    ensures var s, next := states[i], states[i + 1];
      var entitled := OpenToken(states, events, i, a.t) && s.created[a.t] == a.supplied && a.n !in s.registry.nodes && a.serial != 0;
      && p in next.requests
      && (s.requests[p] == Consuming(a) && events[i].fault == FailsAfterCommit && entitled ==>
            && next.requests[p] == Replaying(a, StorageFailed) && next.registry.nodes == s.registry.nodes[a.n := NodeOf(a)]
            && Step(next, Continue(p, NoFault)).requests[p] == Succeeded(a, EnrolledAs(a.n, NodeOf(a))))
      && (s.requests[p] == Consuming(a) && events[i].fault == Fails ==>
            next.registry == s.registry && next.requests[p] == Replaying(a, StorageFailed))
      && (s.requests[p].Replaying? && events[i].fault != NoFault ==>
            next.registry == s.registry && next.requests[p] == Refused(Unavailable))
  {
    HeldTokenIsOpen(states, events, i, a.t);
    assert states[i + 1] == Step(states[i], events[i]);
    hide IsRun, OpenToken;
  }

  // --------------------------------------------------------- a renewal before the answer

  ghost predicate Reachable(s: State) {
    exists states, events :: IsRun(states, events) && states[|events|] == s
  }

  lemma Reach(s: State, e: Event) returns (next: State)
    requires Reachable(s) && Enabled(s, e)
    ensures next == Step(s, e) && Reachable(next)
  {
    hide Step, Enabled;
    var states, events :| IsRun(states, events) && states[|events|] == s;
    next := Step(s, e);
    var longer, more := states + [next], events + [e];
    forall i | 0 <= i < |more|
      ensures Enabled(longer[i], more[i]) && longer[i + 1] == Step(longer[i], more[i])
    {
      if i < |events| { assert longer[i] == states[i] && longer[i + 1] == states[i + 1] && more[i] == events[i]; }
    }
    assert IsRun(longer, more) && longer[|more|] == next;
  }

  const FIRST_ATTEMPT := Attempt(0, Token(7, 1), 5, 1, 0, 9, 3, 10)

  const SECOND_ATTEMPT := FIRST_ATTEMPT.(n := 6, serial := 2, certificate := 11)

  const FIRST_CREDENTIAL := Credential(5, 1, 1, 0, 9)

  const SECOND_CREDENTIAL := FIRST_CREDENTIAL.(serial := 4)

  /** Node 5 was enrolled with certificate 10. */
  const ENROLLED_ONCE := State(
    Registry(map[], map[5 := Node(FIRST_CREDENTIAL, false, 3, 10)], map[0 := Token(7, 1)], map[0 := 5]),
    map[0 := Succeeded(FIRST_ATTEMPT, Enrolled(5, FIRST_CREDENTIAL, 10))],
    map[0 := Token(7, 1)], map[0 := Binding(5, 3)], {}, {}, {}, {(5, 1)}, map[FIRST_CREDENTIAL := 10], {10})

  lemma EnrolledOnceReachable()
    ensures Reachable(ENROLLED_ONCE)
  {
    assert IsRun([EMPTY], []);
    var s := Reach(EMPTY, Create(0, Token(7, 1)));
    s := Reach(s, Arrive(0, FIRST_ATTEMPT));
    s := Reach(s, Continue(0, NoFault));
    hide Reachable;
    assert s == ENROLLED_ONCE;
  }

  /** A second request with the same code and key, answered after the node renewed its
      credential, is told the new credential beside the certificate of the first. */
  lemma RenewedReplayIsReachable() returns (s: State, p: RequestID)
    ensures Reachable(s) && p in s.requests && s.requests[p].Succeeded?
    ensures var x := s.requests[p].enrolled;
      && Authorized(s.registry, x.credential, 1)
      && x.credential in s.certificates && s.certificates[x.credential] != x.certificate
  {
    p := 1;
    EnrolledOnceReachable();
    hide Reachable;
    s := Reach(ENROLLED_ONCE, Renew(5, FIRST_CREDENTIAL, SECOND_CREDENTIAL, 12, 1));
    assert s.certificates[SECOND_CREDENTIAL] == 12;
    s := Reach(s, Arrive(1, SECOND_ATTEMPT));
    s := Reach(s, Continue(1, NoFault));
    assert s.requests[1] == Replaying(SECOND_ATTEMPT, TokenNotFound);
    s := Reach(s, Continue(1, NoFault));
    assert s.requests[1] == Succeeded(SECOND_ATTEMPT, Enrolled(5, SECOND_CREDENTIAL, 10));
  }
}
