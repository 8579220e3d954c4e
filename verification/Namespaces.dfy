/** Namespaces and their string forms (crates/core/src/capability.rs, crates/cli/src/network_commands.rs). */
module Namespaces {
  import opened Basics
  import opened Text

  datatype Scope = All | Personal | Project(id: string) | Room(id: string) | Agent(id: string)

  datatype Namespace = Namespace(networkId: string, scope: Scope)
  {
    /** Within one network the scope `All` includes every other, and any other only itself. */
    predicate Covers(other: Namespace) {
      networkId == other.networkId && (scope.All? || scope == other.scope)
    }

    function Canonical(): string {
      "network:" + networkId + ":" + Tail(scope)
    }
  }

  function Tail(scope: Scope): string {
    match scope
    case All => "*"
    case Personal => "personal"
    case Project(id) => Scoped("project", id)
    case Room(id) => Scoped("room", id)
    case Agent(id) => Scoped("agent", id)
  }

  function Scoped(kind: string, id: string): string {
    kind + ":" + id
  }

  function ParseScoped(other: string): Option<Scope> {
    match SplitOnce(other, ':')
    case None => None
    case Some((kind, id)) =>
      if kind == "project" then Some(Project(id))
      else if kind == "room" then Some(Room(id))
      else if kind == "agent" then Some(Agent(id))
      else None
  }

  function ParseTail(tail: string): Option<Scope> {
    if tail == "*" then Some(All) else if tail == "personal" then Some(Personal) else ParseScoped(tail)
  }

  /** `network:{id}:{scope}` read back. */
  function Parse(s: string): Option<Namespace> {
    match StripPrefix(s, "network:")
    case None => None
    case Some(rest) =>
      match SplitOnce(rest, ':')
      case None => None
      case Some((network, tail)) =>
        match ParseTail(tail)
        case None => None
        case Some(scope) => Some(Namespace(network, scope))
  }

  /** The command line's parser of the scope alone. */
  function ParseArgument(networkId: string, s: string): Option<Namespace> {
    if s == "all" || s == "*" then Some(Namespace(networkId, All))
    else if s == "personal" then Some(Namespace(networkId, Personal))
    else match ParseScoped(s)
      case None => None
      case Some(scope) => Some(Namespace(networkId, scope))
  }

  lemma ScopedSplits(kind: string, id: string)
    requires ':' !in kind
    ensures SplitOnce(Scoped(kind, id), ':') == Some((kind, id))
    ensures Scoped(kind, id) != "personal" && Scoped(kind, id) != "*"
  {
    SplitAtFirst(kind, id, ':');
    assert Scoped(kind, id)[|kind|] == ':';
    assert ':' !in "personal" && ':' !in "*";
  }

  lemma ParseTailOfTail(scope: Scope)
    ensures ParseTail(Tail(scope)) == Some(scope)
  {
    match scope
    case All =>
    case Personal =>
    case Project(id) => ScopedSplits("project", id);
    case Room(id) => ScopedSplits("room", id);
    case Agent(id) => ScopedSplits("agent", id);
  }

  /** Parsing undoes printing exactly for networks whose id has no colon. */
  lemma ParseUndoesCanonical(n: Namespace)
    ensures Parse(n.Canonical()) == Some(n) <==> ':' !in n.networkId
  {
    var rest := n.networkId + ":" + Tail(n.scope);
    assert n.Canonical() == "network:" + rest;
    assert n.Canonical()[|"network:"|..] == rest;
    ParseTailOfTail(n.scope);
    if ':' !in n.networkId {
      SplitAtFirst(n.networkId, Tail(n.scope), ':');
    }
  }

  lemma TailOfParseTail(tail: string)
    requires ParseTail(tail).Some?
    ensures Tail(ParseTail(tail).value) == tail
  {
  }

  /** Printing undoes parsing, so a string that parses is the one canonical form of what it parses to. */
  lemma CanonicalUndoesParse(s: string)
    requires Parse(s).Some?
    ensures Parse(s).value.Canonical() == s && ':' !in Parse(s).value.networkId
  {
    var rest := StripPrefix(s, "network:").value;
    var (network, tail) := SplitOnce(rest, ':').value;
    TailOfParseTail(tail);
    Regroup("network:" + network, ":", tail);
    Regroup("network:", network + ":", tail);
    Regroup("network:", network, ":");
  }

  /** The two parsers agree on every scope but `all`, which only the command line knows; for that they agree on
      no network. */
  lemma ParsersAgree(networkId: string, tail: string)
    requires ':' !in networkId
    ensures Parse("network:" + networkId + ":" + tail) == ParseArgument(networkId, tail) <==> tail != "all"
  {
    var rest := networkId + ":" + tail;
    assert "network:" + networkId + ":" + tail == "network:" + rest;
    assert ("network:" + rest)[|"network:"|..] == rest;
    SplitAtFirst(networkId, tail, ':');
    if tail == "all" {
      assert ':' !in tail;
      assert SplitOnce(tail, ':').None?;
    }
  }

  /** How namespaces are written. */
  lemma CanonicalForms(network: string, id: string)
    ensures Namespace(network, All).Canonical() == "network:" + network + ":*"
    ensures Namespace(network, Personal).Canonical() == "network:" + network + ":personal"
    ensures Namespace(network, Project(id)).Canonical() == "network:" + network + ":project:" + id
    ensures Namespace(network, Room(id)).Canonical() == "network:" + network + ":room:" + id
    ensures Namespace(network, Agent(id)).Canonical() == "network:" + network + ":agent:" + id
  {
    Regroup("network:" + network, ":", "project:" + id);
    Regroup("network:" + network, ":project:", id);
    assert ":" + ("project:" + id) == ":project:" + id;
    Regroup("network:" + network, ":room:", id);
    assert ":" + ("room:" + id) == ":room:" + id;
    Regroup("network:" + network, ":agent:", id);
    assert ":" + ("agent:" + id) == ":agent:" + id;
  }
}
