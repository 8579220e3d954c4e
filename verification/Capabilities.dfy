/** Signed, scoped, expiring grants and the recursive rule that accepts a chain of them
    (crates/core/src/capability.rs). */
module Capabilities {
  import opened Basics
  import opened Namespaces

  const CAPABILITY_VERSION: nat := 1
  const U64_MAX: nat := 0xFFFF_FFFF_FFFF_FFFF

  datatype Operation =
    | Discover | SyncRead | SyncWrite | MessageReceive | MessageSend | CheckpointCreate | MergePropose
    | MergeAccept | MemberInvite | CapabilityGrant | MemberRevoke | RequestPublicationReview

  /** What is signed: everything in a capability but its signature. */
  datatype Grant = Grant(
    version: nat, namespace: Namespace, subject: string, operations: seq<Operation>, constraints: seq<string>,
    issuedAt: nat, expiresAt: nat, epoch: nat, delegable: bool, issuer: string)

  /** A signature as such: one made with a key over a grant, a string that is no signature of anything, or one
      that does not even decode. */
  datatype Signature = Signed(key: string, over: Grant) | Bogus | Undecodable

  datatype Capability = Capability(grant: Grant, signature: Signature)

  /** The verifier's view: the network, its membership epoch, its root keys with rotations resolved, who is
      revoked, and which ids are keys at all. */
  datatype Network = Network(id: string, epoch: nat, roots: set<string>, revoked: set<string>, keys: set<string>)

  datatype Error =
    | Version | WrongNetwork | Malformed | BadSignature | NotYetValid | Expired | StaleEpoch | SubjectRevoked
    | IssuerRevoked | NoAuthorizingParent | BrokenChain | NotDelegable | CannotGrant | ScopeEscalation
    | PrivilegeEscalation | OutlivesGrant

  type Verdict = Result<(), Error>

  /** Issue and sign.  Anyone may issue anything; it is the verifier that checks authority. */
  function Issue(key: string, namespace: Namespace, subject: string, operations: seq<Operation>, issuedAt: nat,
                 ttl: nat, epoch: nat, delegable: bool): Capability {
    var grant := Grant(CAPABILITY_VERSION, namespace, subject, operations, [], issuedAt, Min(issuedAt + ttl, U64_MAX),
                       epoch, delegable, key);
    Capability(grant, Signed(key, grant))
  }

  function VerifySignature(net: Network, cap: Capability): Result<bool, Error> {
    if cap.grant.issuer !in net.keys || cap.signature.Undecodable? then Err(Malformed)
    else Ok(cap.signature == Signed(cap.grant.issuer, cap.grant))
  }

  predicate Authorizes(g: Grant, op: Operation, ns: Namespace) {
    g.namespace.Covers(ns) && op in g.operations
  }

  /** Is `child` a legal subset delegation of `parent`? */
  function CanDelegate(parent: Grant, child: Grant): Verdict {
    if !parent.delegable then Err(NotDelegable)
    else if CapabilityGrant !in parent.operations then Err(CannotGrant)
    else if !parent.namespace.Covers(child.namespace) then Err(ScopeEscalation)
    else if !(forall op :: op in child.operations ==> op in parent.operations) then Err(PrivilegeEscalation)
    else if child.expiresAt > parent.expiresAt then Err(OutlivesGrant)
    else Ok(())
  }

  /** Whether a capability is good now: its own grant is checked, and each issuer's right to issue against the next
      capability up in `chain`. */
  function Verify(cap: Capability, chain: seq<Capability>, net: Network, now: nat): Verdict
    decreases |chain|
  {
    var g := cap.grant;
    if g.version != CAPABILITY_VERSION then Err(Version)
    else if g.namespace.networkId != net.id then Err(WrongNetwork)
    else match VerifySignature(net, cap)
      case Err(e) => Err(e)
      case Ok(valid) =>
        if !valid then Err(BadSignature)
        else if now < g.issuedAt then Err(NotYetValid)
        else if now >= g.expiresAt then Err(Expired)
        else if g.epoch != net.epoch then Err(StaleEpoch)
        else if g.subject in net.revoked then Err(SubjectRevoked)
        else if g.issuer in net.revoked then Err(IssuerRevoked)
        else if g.issuer in net.roots then Ok(())
        else if chain == [] then Err(NoAuthorizingParent)
        else if chain[0].grant.subject != g.issuer then Err(BrokenChain)
        else match CanDelegate(chain[0].grant, g)
          case Err(e) => Err(e)
          case Ok(_) => Verify(chain[0], chain[1..], net, now)
  }

  // ---- the reference: the line of grants a verdict rests on ------------------------------------------

  /** The capabilities used: from `cap` up to and including the first that a root issued. */
  function Line(cap: Capability, chain: seq<Capability>, net: Network): seq<Capability>
    decreases |chain|
  {
    if cap.grant.issuer in net.roots || chain == [] then [cap] else [cap] + Line(chain[0], chain[1..], net)
  }

  /** One link by itself: current version, this network and epoch, truly signed. */
  predicate Sound(cap: Capability, net: Network) {
    && cap.grant.version == CAPABILITY_VERSION
    && cap.grant.namespace.networkId == net.id
    && cap.grant.epoch == net.epoch
    && cap.grant.issuer in net.keys
    && cap.signature == Signed(cap.grant.issuer, cap.grant)
  }

  predicate InForce(cap: Capability, now: nat) {
    cap.grant.issuedAt <= now < cap.grant.expiresAt
  }

  predicate Untouched(cap: Capability, revoked: set<string>) {
    cap.grant.subject !in revoked && cap.grant.issuer !in revoked
  }

  /** `parent` may be delegated, by its subject, the child's issuer, and grants at least what the child grants: on the
      same network, everywhere or in the very scope, every operation, and for as long. */
  predicate Delegates(parent: Capability, child: Capability) {
    var p, c := parent.grant, child.grant;
    && p.subject == c.issuer
    && p.delegable && CapabilityGrant in p.operations
    && p.namespace.networkId == c.namespace.networkId
    && (p.namespace.scope == All || p.namespace.scope == c.namespace.scope)
    && (forall op :: op in c.operations ==> op in p.operations)
    && c.expiresAt <= p.expiresAt
  }

  /** A line holds together: each link is sound, each parent delegates to its child, a root issued the last. */
  predicate Holds(line: seq<Capability>, net: Network) {
    && line != []
    && (forall i :: 0 <= i < |line| ==> Sound(line[i], net))
    && (forall i :: 0 <= i < |line| - 1 ==> Delegates(line[i + 1], line[i]))
    && line[|line| - 1].grant.issuer in net.roots
  }

  lemma HoldsCons(cap: Capability, rest: seq<Capability>, net: Network)
    requires rest != []
    ensures Holds([cap] + rest, net) <==> Sound(cap, net) && Delegates(rest[0], cap) && Holds(rest, net)
  {
    var line := [cap] + rest;
    assert forall i :: 0 <= i < |rest| ==> line[i + 1] == rest[i];
    if Holds(line, net) {
      assert Sound(line[0], net) && Delegates(line[0 + 1], line[0]);
      forall i | 0 <= i < |rest| ensures Sound(rest[i], net) { assert Sound(line[i + 1], net); }
      forall i | 0 <= i < |rest| - 1 ensures Delegates(rest[i + 1], rest[i]) {
        assert Delegates(line[i + 1 + 1], line[i + 1]);
      }
    }
    if Sound(cap, net) && Delegates(rest[0], cap) && Holds(rest, net) {
      forall i | 0 <= i < |line| - 1 ensures Delegates(line[i + 1], line[i]) {
        if i > 0 { assert Delegates(rest[i - 1 + 1], rest[i - 1]); }
      }
    }
  }

  lemma LineStartsAtCap(cap: Capability, chain: seq<Capability>, net: Network)
    ensures Line(cap, chain, net) != [] && Line(cap, chain, net)[0] == cap
  {
  }

  /** The verifier accepts exactly the lines that hold together, are in force and are unrevoked, link by link. */
  lemma {:induction false} AcceptedExactly(cap: Capability, chain: seq<Capability>, net: Network, now: nat)
    ensures var line := Line(cap, chain, net);
            Verify(cap, chain, net, now).Ok? <==>
              && Holds(line, net)
              && (forall c :: c in line ==> InForce(c, now))
              && (forall c :: c in line ==> Untouched(c, net.revoked))
    decreases |chain|
  {
    var line := Line(cap, chain, net);
    if cap.grant.issuer in net.roots || chain == [] {
      assert line == [cap] && line[0] == cap && forall c :: c in line <==> c == cap;
      assert Holds(line, net) <==> Sound(line[0], net) && cap.grant.issuer in net.roots;
      assert cap in line;
    } else {
      var rest := Line(chain[0], chain[1..], net);
      LineStartsAtCap(chain[0], chain[1..], net);
      AcceptedExactly(chain[0], chain[1..], net, now);
      HoldsCons(cap, rest, net);
      assert line == [cap] + rest;
      assert cap in line && forall c :: c in line <==> c == cap || c in rest;
    }
  }

  // ---- why a capability is refused -------------------------------------------------------------------

  /** The fault `e` says link `cap` has, given the capability above it, if there is one. */
  predicate HasFault(e: Error, cap: Capability, above: Option<Capability>, net: Network, now: nat) {
    var g := cap.grant;
    match e
    case Version => g.version != CAPABILITY_VERSION
    case WrongNetwork => g.namespace.networkId != net.id
    case Malformed => g.issuer !in net.keys || cap.signature == Undecodable
    case BadSignature => cap.signature != Signed(g.issuer, g)
    case NotYetValid => now < g.issuedAt
    case Expired => g.expiresAt <= now
    case StaleEpoch => g.epoch != net.epoch
    case SubjectRevoked => g.subject in net.revoked
    case IssuerRevoked => g.issuer in net.revoked
    case NoAuthorizingParent => g.issuer !in net.roots && above.None?
    case BrokenChain => g.issuer !in net.roots && above.Some? && above.value.grant.subject != g.issuer
    case NotDelegable => above.Some? && !above.value.grant.delegable
    case CannotGrant => above.Some? && CapabilityGrant !in above.value.grant.operations
    case ScopeEscalation =>
      && above.Some?
      && (above.value.grant.namespace.networkId != g.namespace.networkId
          || (above.value.grant.namespace.scope != All && above.value.grant.namespace.scope != g.namespace.scope))
    case PrivilegeEscalation => above.Some? && exists op :: op in g.operations && op !in above.value.grant.operations
    case OutlivesGrant => above.Some? && g.expiresAt > above.value.grant.expiresAt
  }

  /** The links below hold and are in force, and each is delegated by the one above it. */
  ghost predicate FineUpTo(line: seq<Capability>, n: nat, net: Network, now: nat)
    requires n < |line|
  {
    forall j :: 0 <= j < n ==>
      Sound(line[j], net) && InForce(line[j], now) && Untouched(line[j], net.revoked) && Delegates(line[j + 1], line[j])
  }

  /** A refusal is true: it names a fault of the first link up the line that has any. */
  lemma {:induction false} RefusalsAreTrue(cap: Capability, chain: seq<Capability>, net: Network,
                                           now: nat) returns (i: nat)
    requires Verify(cap, chain, net, now).Err?
    ensures var line := Line(cap, chain, net);
            && i < |line| && FineUpTo(line, i, net, now)
            && HasFault(Verify(cap, chain, net, now).error, line[i], if i + 1 < |line| then Some(line[i + 1]) else None,
                        net, now)
    decreases |chain|
  {
    LineStartsAtCap(cap, chain, net);
    i := 0;
    if cap.grant.issuer !in net.roots && chain != [] {
      LineStartsAtCap(chain[0], chain[1..], net);
      var rest := Line(chain[0], chain[1..], net);
      assert Line(cap, chain, net) == [cap] + rest && Line(cap, chain, net)[1] == chain[0];
      if PassesUpward(cap, chain[0], net, now) {
        OneStepUp(cap, chain, net, now);
        var k := RefusalsAreTrue(chain[0], chain[1..], net, now);
        i := k + 1;
        FineOneMore(cap, rest, k, net, now);
      }
    }
  }

  /** Nothing is wrong with the link itself. */
  predicate PassesUpward(cap: Capability, above: Capability, net: Network, now: nat) {
    Sound(cap, net) && InForce(cap, now) && Untouched(cap, net.revoked) && Delegates(above, cap)
  }

  lemma OneStepUp(cap: Capability, chain: seq<Capability>, net: Network, now: nat)
    requires cap.grant.issuer !in net.roots && chain != [] && PassesUpward(cap, chain[0], net, now)
    ensures Verify(cap, chain, net, now) == Verify(chain[0], chain[1..], net, now)
  {
  }

  lemma FineOneMore(cap: Capability, rest: seq<Capability>, k: nat, net: Network, now: nat)
    requires k < |rest| && FineUpTo(rest, k, net, now) && PassesUpward(cap, rest[0], net, now)
    ensures FineUpTo([cap] + rest, k + 1, net, now)
  {
    var line := [cap] + rest;
    forall j | 0 <= j < k + 1
      ensures Sound(line[j], net) && InForce(line[j], now) && Untouched(line[j], net.revoked)
              && Delegates(line[j + 1], line[j])
    {
      if j > 0 {
        assert line[j] == rest[j - 1] && line[j + 1] == rest[j];
      }
    }
  }

  /** What is issued says what was asked for: it ends its time to live later, or with the last second there is. */
  lemma IssuedAsAsked(key: string, ns: Namespace, subject: string, ops: seq<Operation>, issuedAt: nat, ttl: nat,
                      epoch: nat, delegable: bool)
    ensures var c := Issue(key, ns, subject, ops, issuedAt, ttl, epoch, delegable);
            && c.grant.version == 1 && c.grant.issuer == key && c.grant.subject == subject
            && c.grant.namespace == ns && c.grant.operations == ops && c.grant.constraints == []
            && c.grant.issuedAt == issuedAt && c.grant.epoch == epoch && c.grant.delegable == delegable
            && c.grant.expiresAt <= issuedAt + ttl && c.grant.expiresAt <= 0xFFFF_FFFF_FFFF_FFFF
            && (c.grant.expiresAt == issuedAt + ttl || c.grant.expiresAt == 0xFFFF_FFFF_FFFF_FFFF)
            && c.signature == Signed(key, c.grant)
  {
  }

  /** A grant authorizes the operations it lists, on its network, everywhere or in its very scope. */
  lemma AuthorizesExactly(g: Grant, op: Operation, ns: Namespace)
    ensures Authorizes(g, op, ns) <==>
            && op in g.operations && g.namespace.networkId == ns.networkId
            && (g.namespace.scope == All || g.namespace.scope == ns.scope)
  {
  }

  // ---- authority is never amplified ------------------------------------------------------------------

  /** Going up a line, authority only grows: fewer operations, a narrower namespace, an earlier end below. */
  lemma {:induction false} AncestorsHoldMore(line: seq<Capability>, net: Network, i: nat)
    requires Holds(line, net) && i < |line|
    ensures forall op :: op in line[0].grant.operations ==> op in line[i].grant.operations
    ensures line[i].grant.namespace.Covers(line[0].grant.namespace)
    ensures line[0].grant.expiresAt <= line[i].grant.expiresAt
  {
    if i > 0 {
      AncestorsHoldMore(line, net, i - 1);
      assert Delegates(line[i - 1 + 1], line[i - 1]);
    }
  }

  /** One act of issuing. */
  datatype Act = Act(key: string, namespace: Namespace, subject: string, operations: seq<Operation>, issuedAt: nat,
                     ttl: nat, epoch: nat, delegable: bool)

  function Issued(a: Act): Capability {
    Issue(a.key, a.namespace, a.subject, a.operations, a.issuedAt, a.ttl, a.epoch, a.delegable)
  }

  /** Signatures cannot be forged: a capability may be made up at will, but a signature on it either came out of
      some act of issuing, by whoever holds the key, or is none. */
  predicate Presentable(c: Capability, acts: seq<Act>) {
    c.signature.Signed? ==> exists i :: 0 <= i < |acts| && Issued(acts[i]).signature == c.signature
  }

  /** Authority is never amplified.  Whatever acts of issuing took place, by anyone and in any order, a capability
      accepted with a chain of presentable ones was really issued, and so was every capability its acceptance
      rests on; the last of them by a root; each holds every operation, covers the namespace and lasts at least as
      long; so whatever the capability authorizes, a root did issue a grant that authorizes it. */
  lemma AuthorityIsNeverAmplified(acts: seq<Act>, cap: Capability, chain: seq<Capability>, net: Network, now: nat,
                                  i: nat, op: Operation, ns: Namespace)
    requires Verify(cap, chain, net, now).Ok?
    requires Presentable(cap, acts) && forall c :: c in chain ==> Presentable(c, acts)
    requires i < |Line(cap, chain, net)|
    ensures var line := Line(cap, chain, net); var top := line[|line| - 1];
            && (exists a :: a in acts && Issued(a) == line[i])
            && (exists a :: a in acts && a.key in net.roots && Issued(a) == top)
            && (forall o :: o in cap.grant.operations ==> o in line[i].grant.operations)
            && line[i].grant.namespace.Covers(cap.grant.namespace)
            && cap.grant.expiresAt <= line[i].grant.expiresAt
            && (Authorizes(cap.grant, op, ns) ==> Authorizes(line[i].grant, op, ns) && Authorizes(top.grant, op, ns))
  {
    var line := Line(cap, chain, net);
    var top := |line| - 1;
    AcceptedExactly(cap, chain, net, now);
    LineStartsAtCap(cap, chain, net);
    AncestorsHoldMore(line, net, i);
    AncestorsHoldMore(line, net, top);
    LineIsPresented(cap, chain, net);
    var a := SoundIsIssued(acts, line[i], net);
    var b := SoundIsIssued(acts, line[top], net);
  }

  lemma SoundIsIssued(acts: seq<Act>, c: Capability, net: Network) returns (a: Act)
    requires Sound(c, net) && Presentable(c, acts)
    ensures a in acts && a.key == c.grant.issuer && Issued(a) == c
  {
    var k :| 0 <= k < |acts| && Issued(acts[k]).signature == c.signature;
    a := acts[k];
  }

  lemma {:induction false} LineIsPresented(cap: Capability, chain: seq<Capability>, net: Network)
    ensures forall c :: c in Line(cap, chain, net) ==> c == cap || c in chain
    decreases |chain|
  {
    if cap.grant.issuer !in net.roots && chain != [] {
      LineIsPresented(chain[0], chain[1..], net);
      var rest := Line(chain[0], chain[1..], net);
      assert forall c :: c in Line(cap, chain, net) <==> c == cap || c in rest;
    }
  }

  // ---- when a verdict is favourable -------------------------------------------------------------------

  function LatestIssue(line: seq<Capability>): nat {
    if line == [] then 0
    else if LatestIssue(line[1..]) < line[0].grant.issuedAt then line[0].grant.issuedAt else LatestIssue(line[1..])
  }

  lemma {:induction false} LatestIssueBounds(line: seq<Capability>, now: nat)
    ensures LatestIssue(line) <= now <==> forall c :: c in line ==> c.grant.issuedAt <= now
  {
    if line != [] {
      LatestIssueBounds(line[1..], now);
      assert line == [line[0]] + line[1..];
      assert forall c :: c in line <==> c == line[0] || c in line[1..];
    }
  }

  /** The exact validity interval.  For a fixed capability, chain and network, either no instant is accepted, or
      exactly those from the latest issue on the line up to, not including, the capability's own expiry. */
  lemma ValidityInterval(cap: Capability, chain: seq<Capability>, net: Network, some: nat, now: nat)
    requires Verify(cap, chain, net, some).Ok?
    ensures Verify(cap, chain, net, now).Ok? <==> LatestIssue(Line(cap, chain, net)) <= now < cap.grant.expiresAt
  {
    var line := Line(cap, chain, net);
    AcceptedExactly(cap, chain, net, some);
    AcceptedExactly(cap, chain, net, now);
    LatestIssueBounds(line, now);
    LineStartsAtCap(cap, chain, net);
    assert line[0] in line;
    forall c | c in line ensures cap.grant.expiresAt <= c.grant.expiresAt {
      var i :| 0 <= i < |line| && line[i] == c;
      AncestorsHoldMore(line, net, i);
    }
  }

  /** Exactly the people on the line matter to revocation: with more people revoked, a capability stays accepted
      if and only if it was and none of them is a subject or issuer on its line. */
  lemma RevocationIsExact(cap: Capability, chain: seq<Capability>, net: Network, now: nat, more: set<string>)
    requires net.revoked <= more
    ensures Verify(cap, chain, net.(revoked := more), now).Ok? <==>
              && Verify(cap, chain, net, now).Ok?
              && forall c :: c in Line(cap, chain, net) ==> c.grant.subject !in more && c.grant.issuer !in more
  {
    var net' := net.(revoked := more);
    AcceptedExactly(cap, chain, net, now);
    AcceptedExactly(cap, chain, net', now);
    SameLine(cap, chain, net, net');
    var line := Line(cap, chain, net);
    assert forall i :: 0 <= i < |line| ==> Sound(line[i], net) == Sound(line[i], net');
  }

  lemma {:induction false} SameLine(cap: Capability, chain: seq<Capability>, a: Network, b: Network)
    requires a.roots == b.roots
    ensures Line(cap, chain, a) == Line(cap, chain, b)
    decreases |chain|
  {
    if cap.grant.issuer !in a.roots && chain != [] {
      SameLine(chain[0], chain[1..], a, b);
    }
  }

  /** Capabilities past the first root-issued one are never looked at. */
  lemma {:induction false} BeyondTheRootIsIgnored(cap: Capability, chain: seq<Capability>, more: seq<Capability>,
                                                  net: Network, now: nat)
    requires Verify(cap, chain, net, now).Ok?
    ensures Verify(cap, chain + more, net, now).Ok? && Line(cap, chain + more, net) == Line(cap, chain, net)
    decreases |chain|
  {
    if cap.grant.issuer !in net.roots {
      assert (chain + more)[1..] == chain[1..] + more;
      BeyondTheRootIsIgnored(chain[0], chain[1..], more, net, now);
    }
  }
}
