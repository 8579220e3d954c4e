/** Retention: trimming the checkpoint chain and sweeping orphans (crates/mem/src/gc.rs), and what that does to
    the walks of the core crate. */
module Gc {
  import opened Basics
  import opened Graph
  import Car

  datatype NodeKind = NotRecord | CheckpointOf(parent: Option<Cid>) | DecisionNode | OtherNode

  /** The block layer follows every link in the encoding; the record layer only those its node types list. */
  datatype GcFormats = GcFormats(f: Formats, blockLinks: Bytes -> Option<seq<Cid>>, kind: Bytes -> NodeKind)

  /** What encoded records guarantee: record links are block links, a checkpoint links to its parent, and whatever is a
      record can be read as a block. */
  ghost predicate Consistent(g: GcFormats) {
    forall b: Bytes ::
      && (g.f.decode(b).Decoded? && g.f.decode(b).links.Some? ==>
            g.blockLinks(b).Some? && forall c :: c in g.f.decode(b).links.value ==> c in g.blockLinks(b).value)
      && (g.kind(b).CheckpointOf? && g.kind(b).parent.Some? ==>
            g.f.decode(b).Decoded? && g.f.decode(b).links.Some? && g.kind(b).parent.value in g.f.decode(b).links.value)
      && (g.kind(b) != NotRecord ==> g.blockLinks(b).Some?)
  }

  predicate Present(g: GcFormats, s: Blocks, c: Cid) {
    c in s.files && Compute(g.f, s.files[c]) == c
  }

  predicate Readable(g: GcFormats, s: Blocks, c: Cid) {
    Present(g, s, c) && g.blockLinks(s.files[c]).Some?
  }

  function BlockLinks(g: GcFormats, s: Blocks, c: Cid): seq<Cid> {
    if Readable(g, s, c) then g.blockLinks(s.files[c]).value else []
  }

  // ---- the checkpoint chain -----------------------------------------------------------------------

  /** `chain` follows parent links from `head`, newest first, through present checkpoints. */
  predicate IsChain(g: GcFormats, s: Blocks, head: Option<Cid>, chain: seq<Cid>) {
    && (chain != [] ==> head == Some(chain[0]))
    && (forall i :: 0 <= i < |chain| ==> Present(g, s, chain[i]) && g.kind(s.files[chain[i]]).CheckpointOf?)
    && (forall i :: 0 <= i < |chain| - 1 ==> g.kind(s.files[chain[i]]).parent == Some(chain[i + 1]))
  }

  /** The link a chain leaves unfollowed. */
  function NextLink(g: GcFormats, s: Blocks, head: Option<Cid>, chain: seq<Cid>): Option<Cid>
    requires IsChain(g, s, head, chain)
  {
    if chain == [] then head else g.kind(s.files[chain[|chain| - 1]]).parent
  }

  /** Nowhere to go on: no link, or one that comes round, is absent, or is a record but no checkpoint. */
  predicate IsWholeChain(g: GcFormats, s: Blocks, head: Option<Cid>, chain: seq<Cid>) {
    && IsChain(g, s, head, chain) && NoDuplicates(chain)
    && match NextLink(g, s, head, chain)
       case None => true
       case Some(c) => c in chain || !Present(g, s, c) || g.kind(s.files[c]) in {DecisionNode, OtherNode}
  }

  /** The chain runs into a block that is no record. */
  ghost predicate ChainIsSpoilt(g: GcFormats, s: Blocks, head: Option<Cid>) {
    exists chain :: IsChain(g, s, head, chain) && Spoils(g, s, NextLink(g, s, head, chain))
  }

  predicate Spoils(g: GcFormats, s: Blocks, next: Option<Cid>) {
    next.Some? && Present(g, s, next.value) && g.kind(s.files[next.value]) == NotRecord
  }

  /** Every chain leads where the whole chain leads: into it, or to what it leaves unfollowed. */
  lemma {:induction false} ChainsKeepToTheWhole(g: GcFormats, s: Blocks, head: Option<Cid>, whole: seq<Cid>,
                                                chain: seq<Cid>)
    requires IsWholeChain(g, s, head, whole) && IsChain(g, s, head, chain)
    ensures var next := NextLink(g, s, head, chain);
            next == NextLink(g, s, head, whole) || (next.Some? && next.value in whole)
  {
    if chain != [] {
      var before, last := chain[..|chain| - 1], chain[|chain| - 1];
      assert before != [] ==> g.kind(s.files[chain[|chain| - 2]]).parent == Some(chain[|chain| - 2 + 1]);
      ChainsKeepToTheWhole(g, s, head, whole, before);
      assert NextLink(g, s, head, before) == Some(last) && last in whole;
      var j :| 0 <= j < |whole| && whole[j] == last;
      assert j < |whole| - 1 ==> g.kind(s.files[whole[j]]).parent == Some(whole[j + 1]);
    }
  }

  lemma WholeIsNotSpoilt(g: GcFormats, s: Blocks, head: Option<Cid>, whole: seq<Cid>)
    requires IsWholeChain(g, s, head, whole)
    ensures !ChainIsSpoilt(g, s, head)
  {
    forall chain | IsChain(g, s, head, chain) ensures !Spoils(g, s, NextLink(g, s, head, chain)) {
      ChainsKeepToTheWhole(g, s, head, whole, chain);
    }
  }

  lemma {:induction false} ChainsAgree(g: GcFormats, s: Blocks, head: Option<Cid>, a: seq<Cid>, b: seq<Cid>, i: nat)
    requires IsChain(g, s, head, a) && IsChain(g, s, head, b) && i < |a| && i < |b|
    ensures a[i] == b[i]
  {
    if i > 0 {
      ChainsAgree(g, s, head, a, b, i - 1);
      assert g.kind(s.files[a[i - 1]]).parent == Some(a[i - 1 + 1]);
      assert g.kind(s.files[b[i - 1]]).parent == Some(b[i - 1 + 1]);
    }
  }

  lemma LongerChainGoesOn(g: GcFormats, s: Blocks, head: Option<Cid>, a: seq<Cid>, b: seq<Cid>)
    requires IsChain(g, s, head, a) && IsChain(g, s, head, b) && |a| < |b|
    ensures NextLink(g, s, head, a) == Some(b[|a|])
    ensures b[|a|] in a ==> !NoDuplicates(b)
  {
    forall i | 0 <= i < |a| ensures a[i] == b[i] { ChainsAgree(g, s, head, a, b, i); }
    assert |a| > 0 ==> g.kind(s.files[b[|a| - 1]]).parent == Some(b[|a| - 1 + 1]);
  }

  lemma NoWholeChainGoesOn(g: GcFormats, s: Blocks, head: Option<Cid>, a: seq<Cid>, b: seq<Cid>)
    requires IsWholeChain(g, s, head, a) && IsWholeChain(g, s, head, b)
    ensures |b| <= |a|
  {
    if |a| < |b| {
      LongerChainGoesOn(g, s, head, a, b);
    }
  }

  /** There is one whole chain at most. */
  lemma WholeChainIsUnique(g: GcFormats, s: Blocks, head: Option<Cid>, a: seq<Cid>, b: seq<Cid>)
    requires IsWholeChain(g, s, head, a) && IsWholeChain(g, s, head, b)
    ensures a == b
  {
    NoWholeChainGoesOn(g, s, head, a, b);
    NoWholeChainGoesOn(g, s, head, b, a);
    forall i | 0 <= i < |a| ensures a[i] == b[i] { ChainsAgree(g, s, head, a, b, i); }
  }

  method CheckpointChain(g: GcFormats, s: Blocks, head: Option<Cid>) returns (r: Option<seq<Cid>>)
    ensures r.None? <==> ChainIsSpoilt(g, s, head)
    ensures r.Some? ==> IsWholeChain(g, s, head, r.value)
  {
    var chain: seq<Cid> := [];
    var seen: set<Cid> := {};
    var cursor := head;
    while cursor.Some?
      invariant IsChain(g, s, head, chain)
      invariant cursor == NextLink(g, s, head, chain)
      invariant NoDuplicates(chain) && forall c :: c in seen <==> c in chain
      decreases s.files.Keys - seen
    {
      var cid := cursor.value;
      if cid in seen || !Present(g, s, cid) {
        break;
      }
      seen := seen + {cid};
      match g.kind(s.files[cid])
      case NotRecord => return None;
      case CheckpointOf(parent) =>
        chain := chain + [cid];
        cursor := parent;
      case _ => break;
    }
    WholeIsNotSpoilt(g, s, head, chain);
    r := Some(chain);
  }

  // ---- marking ------------------------------------------------------------------------------------

  /** `keep` is closed: whatever a kept block links to is kept, cut, or was pruned before. */
  ghost predicate Complete(g: GcFormats, s: Blocks, cut: set<Cid>, keep: set<Cid>) {
    forall c, d :: c in keep && d in BlockLinks(g, s, c) ==> d in keep || d in cut || Gone(g, s, d)
  }

  predicate Gone(g: GcFormats, s: Blocks, c: Cid) {
    !Readable(g, s, c) && c in s.pruned
  }

  /** A block is kept for a reason: it can be reached from a root over readable blocks that are not cut. */
  ghost predicate Justified(g: GcFormats, s: Blocks, roots: set<Cid>, cut: set<Cid>, c: Cid) {
    exists p :: Trail(g, s, cut, p) && p[0] in roots && p[|p| - 1] == c
  }

  predicate Trail(g: GcFormats, s: Blocks, cut: set<Cid>, p: seq<Cid>) {
    && p != []
    && (forall i :: 0 <= i < |p| ==> p[i] !in cut)
    && (forall i :: 0 <= i < |p| - 1 ==> p[i + 1] in BlockLinks(g, s, p[i]))
  }

  lemma LinkIsJustified(g: GcFormats, s: Blocks, roots: set<Cid>, cut: set<Cid>, c: Cid, d: Cid)
    requires Justified(g, s, roots, cut, c) && d in BlockLinks(g, s, c) && d !in cut
    ensures Justified(g, s, roots, cut, d)
  {
    var p :| Trail(g, s, cut, p) && p[0] in roots && p[|p| - 1] == c;
    assert Trail(g, s, cut, p + [d]);
  }

  lemma LinksAreJustified(g: GcFormats, s: Blocks, roots: set<Cid>, cut: set<Cid>, c: Cid)
    requires Justified(g, s, roots, cut, c)
    ensures forall d :: d in BlockLinks(g, s, c) && d !in cut ==> Justified(g, s, roots, cut, d)
  {
    forall d | d in BlockLinks(g, s, c) && d !in cut ensures Justified(g, s, roots, cut, d) {
      LinkIsJustified(g, s, roots, cut, c, d);
    }
  }

  /** Everything reachable has been kept, is still on the stack, or is one of the two frontiers. */
  ghost predicate Pending(g: GcFormats, s: Blocks, cut: set<Cid>, keep: set<Cid>, stack: seq<Cid>) {
    forall c, d :: c in keep && d in BlockLinks(g, s, c) ==> d in keep || d in cut || d in stack || Gone(g, s, d)
  }

  /** Push the links of a newly kept block that are neither kept nor cut. */
  method PushAll(links: seq<Cid>, keep: set<Cid>, cut: set<Cid>, stack0: seq<Cid>) returns (stack: seq<Cid>)
    ensures forall c :: c in stack <==> c in stack0 || (c in links && c !in keep && c !in cut)
  {
    stack := stack0;
    for i := 0 to |links|
      invariant forall c :: c in stack <==> c in stack0 || (c in links[..i] && c !in keep && c !in cut)
    {
      if links[i] !in keep && links[i] !in cut {
        stack := stack + [links[i]];
      }
    }
    assert links[..|links|] == links;
  }

  /** A block there is reason to keep is unreadable, and not because it was pruned. */
  ghost predicate HasHole(g: GcFormats, s: Blocks, roots: set<Cid>, cut: set<Cid>) {
    exists c :: Justified(g, s, roots, cut, c) && !Readable(g, s, c) && c !in s.pruned
  }

  /** What has been kept so far when nothing is left to visit is all there is reason to keep. */
  lemma {:induction false} JustifiedIsKept(g: GcFormats, s: Blocks, roots: set<Cid>, cut: set<Cid>, keep: set<Cid>,
                                           p: seq<Cid>)
    requires Complete(g, s, cut, keep) && forall c :: c in roots ==> c in keep || c in cut || Gone(g, s, c)
    requires Trail(g, s, cut, p) && p[0] in roots
    ensures p[|p| - 1] in keep || Gone(g, s, p[|p| - 1])
  {
    if |p| > 1 {
      var q := p[..|p| - 1];
      assert p[|p| - 1] in BlockLinks(g, s, p[|p| - 2]);
      JustifiedIsKept(g, s, roots, cut, keep, q);
    }
  }

  /** The mark phase.  It fails exactly on a hole; otherwise it keeps every readable block there is reason to keep,
      and no other. */
  method Mark(g: GcFormats, s: Blocks, roots: set<Cid>, cut: set<Cid>) returns (r: Option<set<Cid>>)
    ensures r.None? <==> HasHole(g, s, roots, cut)
    ensures r.Some? ==> && Complete(g, s, cut, r.value)
                        && (forall c :: c in r.value <==> Readable(g, s, c) && Justified(g, s, roots, cut, c))
                        && (forall c :: c in r.value ==> c !in cut)
                        && (forall c :: c in roots ==> c in r.value || c in cut || Gone(g, s, c))
  {
    var keep: set<Cid> := {};
    var stack := RootsToVisit(g, s, roots, cut);
    while stack != []
      invariant forall c :: c in keep ==> Readable(g, s, c) && c !in cut && Justified(g, s, roots, cut, c)
      invariant forall c :: c in stack ==> Justified(g, s, roots, cut, c)
      invariant forall c :: c in roots ==> c in keep || c in cut || c in stack || Gone(g, s, c)
      invariant Pending(g, s, cut, keep, stack)
      decreases s.files.Keys - keep, |stack|
    {
      var cid := stack[|stack| - 1];
      ghost var before := stack;
      stack := stack[..|stack| - 1];
      assert before == stack + [cid];
      assert cid in before;
      if cid !in cut && cid !in keep {
        if Readable(g, s, cid) {
          LinksAreJustified(g, s, roots, cut, cid);
          stack := PushAll(BlockLinks(g, s, cid), keep + {cid}, cut, stack);
          keep := keep + {cid};
        } else if cid !in s.pruned {
          return None;
        }
      }
    }
    AllJustifiedAreKept(g, s, roots, cut, keep);
    r := Some(keep);
  }

  lemma AllJustifiedAreKept(g: GcFormats, s: Blocks, roots: set<Cid>, cut: set<Cid>, keep: set<Cid>)
    requires Complete(g, s, cut, keep) && forall c :: c in roots ==> c in keep || c in cut || Gone(g, s, c)
    ensures forall c :: Justified(g, s, roots, cut, c) ==> c in keep || Gone(g, s, c)
  {
    forall c | Justified(g, s, roots, cut, c) ensures c in keep || Gone(g, s, c) {
      var p :| Trail(g, s, cut, p) && p[0] in roots && p[|p| - 1] == c;
      JustifiedIsKept(g, s, roots, cut, keep, p);
    }
  }

  method RootsToVisit(g: GcFormats, s: Blocks, roots: set<Cid>, cut: set<Cid>) returns (stack: seq<Cid>)
    ensures forall c :: c in stack <==> c in roots && c !in cut
    ensures forall c :: c in stack ==> Justified(g, s, roots, cut, c)
  {
    stack := [];
    var rest := roots;
    while rest != {}
      invariant rest <= roots
      invariant forall c :: c in stack <==> c in roots - rest && c !in cut
      decreases rest
    {
      var c :| c in rest;
      rest := rest - {c};
      if c !in cut {
        stack := stack + [c];
      }
    }
    forall c | c in stack ensures Justified(g, s, roots, cut, c) {
      assert Trail(g, s, cut, [c]);
    }
  }

  // ---- one collection -----------------------------------------------------------------------------

  datatype Collection = Collection(after: Blocks, keep: set<Cid>, trim: set<Cid>)

  function Decisions(g: GcFormats, s: Blocks): set<Cid> {
    set c | c in s.files && g.kind(s.files[c]).DecisionNode?
  }

  function Newest(chain: seq<Cid>, n: nat): seq<Cid> {
    if n <= |chain| then chain[..n] else chain
  }

  function Oldest(chain: seq<Cid>, n: nat): seq<Cid> {
    if n <= |chain| then chain[n..] else []
  }

  /** What one pass deletes: the checkpoints past the newest `n` that no name binds are cut, and then whatever is
      not kept goes, each deletion leaving a tombstone. */
  ghost predicate Collects(g: GcFormats, s: Blocks, named: set<Cid>, head: Option<Cid>, n: nat, c: Collection) {
    exists chain :: IsWholeChain(g, s, head, chain) && CollectsAlong(g, s, named, chain, n, c)
  }

  /** What one pass refuses: a chain that runs into something else, a block whose bytes are not its name's, or a hole
      under what it should keep. */
  ghost predicate Refuses(g: GcFormats, s: Blocks, named: set<Cid>, head: Option<Cid>, n: nat) {
    || ChainIsSpoilt(g, s, head)
    || (exists c :: c in s.files && !Present(g, s, c))
    || exists chain :: IsWholeChain(g, s, head, chain)
         && HasHole(g, s, named + Members(Newest(chain, n)) + Decisions(g, s), Members(Oldest(chain, n)) - named)
  }

  ghost predicate CollectsAlong(g: GcFormats, s: Blocks, named: set<Cid>, chain: seq<Cid>, n: nat, c: Collection) {
    var roots := named + Members(Newest(chain, n)) + Decisions(g, s);
    && c.trim == Members(Oldest(chain, n)) - named
    && c.after == Blocks(s.files - (s.files.Keys - c.keep), s.pruned + (s.files.Keys - c.keep))
    && Complete(g, s, c.trim, c.keep)
    && (forall b :: b in c.keep ==> Readable(g, s, b) && b !in c.trim && Justified(g, s, roots, c.trim, b))
    && (forall b :: b in roots ==> b in c.keep || b in c.trim || Gone(g, s, b))
  }

  /** A block a pass leaves, with its bytes. */
  predicate Survives(s: Blocks, c: Collection, b: Cid) {
    b in s.files && b in c.keep && b in c.after.files && c.after.files[b] == s.files[b]
  }

  lemma RootsSurvive(g: GcFormats, s: Blocks, named: set<Cid>, chain: seq<Cid>, n: nat, c: Collection, b: Cid)
    requires CollectsAlong(g, s, named, chain, n, c) && Readable(g, s, b)
    requires b in named + Members(Newest(chain, n)) + Decisions(g, s) && b !in c.trim
    ensures Survives(s, c, b)
  {
  }

  /** Every decision survives, wherever it lives. */
  predicate KeepsDecisions(g: GcFormats, s: Blocks, c: Collection) {
    forall b :: b in s.files && g.kind(s.files[b]).DecisionNode? ==> Survives(s, c, b)
  }

  /** Of the chain, the newest `n` checkpoints survive, and of the others those that a name binds; the rest are gone,
      each leaving a tombstone. */
  predicate KeepsNewest(s: Blocks, named: set<Cid>, chain: seq<Cid>, n: nat, c: Collection) {
    forall i :: 0 <= i < |chain| ==>
      if i < n || chain[i] in named then Survives(s, c, chain[i])
      else chain[i] !in c.after.files && chain[i] in c.after.pruned
  }

  lemma RecordsAreReadable(g: GcFormats, s: Blocks, c: Cid)
    requires Consistent(g) && Present(g, s, c) && g.kind(s.files[c]) != NotRecord
    ensures Readable(g, s, c)
  {
  }

  lemma NewestAreNotOld(chain: seq<Cid>, n: nat, i: nat)
    requires NoDuplicates(chain) && i < n && i < |chain|
    ensures chain[i] !in Oldest(chain, n)
  {
    forall j | 0 <= j < |Oldest(chain, n)| ensures Oldest(chain, n)[j] != chain[i] {
      assert Oldest(chain, n)[j] == chain[n + j];
    }
  }

  lemma DecisionsSurvive(g: GcFormats, s: Blocks, named: set<Cid>, head: Option<Cid>, chain: seq<Cid>, n: nat,
                         c: Collection)
    requires Consistent(g) && IsChain(g, s, head, chain) && CollectsAlong(g, s, named, chain, n, c)
    requires forall b :: b in s.files ==> Present(g, s, b)
    ensures KeepsDecisions(g, s, c)
  {
    forall b | b in s.files && g.kind(s.files[b]).DecisionNode? ensures Survives(s, c, b) {
      RecordsAreReadable(g, s, b);
      forall i | 0 <= i < |chain| ensures chain[i] != b {
        assert g.kind(s.files[chain[i]]).CheckpointOf?;
      }
      assert forall d :: d in Oldest(chain, n) ==> d in chain;
      RootsSurvive(g, s, named, chain, n, c, b);
    }
  }

  lemma NewestSurvive(g: GcFormats, s: Blocks, named: set<Cid>, head: Option<Cid>, chain: seq<Cid>, n: nat,
                      c: Collection)
    requires Consistent(g) && IsWholeChain(g, s, head, chain) && CollectsAlong(g, s, named, chain, n, c)
    ensures KeepsNewest(s, named, chain, n, c)
  {
    forall i | 0 <= i < |chain|
      ensures if i < n || chain[i] in named then Survives(s, c, chain[i])
              else chain[i] !in c.after.files && chain[i] in c.after.pruned
    {
      RecordsAreReadable(g, s, chain[i]);
      if i < n {
        assert Newest(chain, n)[i] == chain[i];
        NewestAreNotOld(chain, n, i);
        RootsSurvive(g, s, named, chain, n, c, chain[i]);
      } else if chain[i] in named {
        RootsSurvive(g, s, named, chain, n, c, chain[i]);
      } else {
        assert Oldest(chain, n)[i - n] == chain[i];
      }
    }
  }

  method Collect(g: GcFormats, s: Blocks, named: set<Cid>, head: Option<Cid>, n: nat) returns (r: Option<Collection>)
    ensures r.None? <==> Refuses(g, s, named, head, n)
    ensures r.Some? ==> Collects(g, s, named, head, n, r.value)
    ensures r.Some? ==> forall c :: c in s.files ==> Present(g, s, c) && c.codec == DAG_CBOR
    ensures r.Some? && Consistent(g) ==> KeepsDecisions(g, s, r.value)
    ensures r.Some? && Consistent(g) ==> forall chain ::
              IsWholeChain(g, s, head, chain) ==> KeepsNewest(s, named, chain, n, r.value)
  {
    var chain := CheckpointChain(g, s, head);
    if chain.None? {
      return None;
    }
    var trim := Members(Oldest(chain.value, n)) - named;
    var decisions: set<Cid> := {};
    var rest := s.files.Keys;
    while rest != {}
      invariant rest <= s.files.Keys
      invariant forall c :: c in s.files.Keys - rest ==> Present(g, s, c)
      invariant decisions == set c | c in s.files.Keys - rest && g.kind(s.files[c]).DecisionNode?
      decreases rest
    {
      var c :| c in rest;
      rest := rest - {c};
      if !Present(g, s, c) {
        return None;
      }
      if g.kind(s.files[c]).DecisionNode? {
        decisions := decisions + {c};
      }
    }
    assert decisions == Decisions(g, s);
    var keep := Mark(g, s, named + Members(Newest(chain.value, n)) + decisions, trim);
    if keep.None? {
      return None;
    }
    var dead := s.files.Keys - keep.value;
    var c := Collection(Blocks(s.files - dead, s.pruned + dead), keep.value, trim);
    assert CollectsAlong(g, s, named, chain.value, n, c);
    forall other | IsWholeChain(g, s, head, other) ensures other == chain.value {
      WholeChainIsUnique(g, s, head, other, chain.value);
    }
    if Consistent(g) {
      DecisionsSurvive(g, s, named, head, chain.value, n, c);
      NewestSurvive(g, s, named, head, chain.value, n, c);
    }
    r := Some(c);
  }

  /** In a store whose blocks all hash to their names, what a pass finds unsound is exactly a block under another
      codec than the node codec. */
  lemma OtherCodecsAreUnsound(g: GcFormats, s: Blocks)
    requires Car.Intact(g.f, s)
    ensures (exists c :: c in s.files && !Present(g, s, c)) <==> exists c :: c in s.files && c.codec != DAG_CBOR
  {
    forall c | c in s.files ensures Present(g, s, c) <==> c.codec == DAG_CBOR {
      assert Car.VerifyBlock(g.f, Car.Block(c, s.files[c]));
    }
  }

  lemma {:induction false} WrittenIsThere(files: map<Cid, Bytes>, blocks: seq<Car.Block>, i: nat)
    requires i < |blocks|
    ensures blocks[i].cid in Car.Written(files, blocks)
  {
    if i < |blocks| - 1 {
      WrittenIsThere(files, blocks[..|blocks| - 1], i);
    }
  }

  /** So once an archive with such a block has been imported, or such a block stored, every pass refuses. */
  lemma ImportedCodecsMakePassesRefuse(g: GcFormats, t: Blocks, blocks: seq<Car.Block>, i: nat, named: set<Cid>,
                                       head: Option<Cid>, n: nat)
    requires i < |blocks| && blocks[i].cid.codec != DAG_CBOR
    ensures Refuses(g, Blocks(Car.Written(t.files, blocks), t.pruned), named, head, n)
    ensures Refuses(g, Blocks(t.files[blocks[i].cid := blocks[i].bytes], t.pruned), named, head, n)
  {
    var c := blocks[i].cid;
    WrittenIsThere(t.files, blocks, i);
    assert !Present(g, Blocks(Car.Written(t.files, blocks), t.pruned), c);
    assert !Present(g, Blocks(t.files[c := blocks[i].bytes], t.pruned), c);
  }

  // ---- what a collection does to walks ------------------------------------------------------------

  ghost predicate IsRoot(g: GcFormats, s: Blocks, named: set<Cid>, chain: seq<Cid>, n: nat, root: Cid) {
    root in named + Members(Newest(chain, n)) + Decisions(g, s)
  }

  lemma GoodIsReadable(g: GcFormats, s: Blocks, c: Cid)
    requires Consistent(g) && Good(g.f, s, c)
    ensures Readable(g, s, c) && forall d :: d in Links(g.f, s, c) ==> d in BlockLinks(g, s, c)
  {
    var b := s.files[c];
    assert g.f.decode(b).Decoded? && g.f.decode(b).links.Some?;
  }

  lemma NextIsKept(g: GcFormats, s: Blocks, named: set<Cid>, chain: seq<Cid>, n: nat, c: Collection, a: Cid, b: Cid)
    requires Consistent(g) && CollectsAlong(g, s, named, chain, n, c)
    requires a in c.keep && b in Links(g.f, s, a) && Good(g.f, s, a) && Good(g.f, s, b) && b !in c.trim
    ensures b in c.keep
  {
    GoodIsReadable(g, s, a);
    GoodIsReadable(g, s, b);
  }

  lemma RootIsKept(g: GcFormats, s: Blocks, named: set<Cid>, chain: seq<Cid>, n: nat, c: Collection, root: Cid)
    requires Consistent(g) && CollectsAlong(g, s, named, chain, n, c)
    requires IsRoot(g, s, named, chain, n, root) && Good(g.f, s, root) && root !in c.trim
    ensures root in c.keep
  {
    GoodIsReadable(g, s, root);
  }

  /** Along a path that avoids what is trimmed, everything is kept. */
  lemma {:induction false} UntrimmedPathIsKept(g: GcFormats, s: Blocks, named: set<Cid>, chain: seq<Cid>, n: nat,
                                               c: Collection, p: seq<Cid>, i: nat)
    requires Consistent(g) && CollectsAlong(g, s, named, chain, n, c)
    requires IsPath(g.f, s, p) && IsRoot(g, s, named, chain, n, p[0])
    requires forall j :: 0 <= j < |p| ==> Good(g.f, s, p[j]) && p[j] !in c.trim
    requires i < |p|
    ensures p[i] in c.keep
  {
    if i == 0 {
      RootIsKept(g, s, named, chain, n, c, p[0]);
    } else {
      UntrimmedPathIsKept(g, s, named, chain, n, c, p, i - 1);
      assert p[i - 1 + 1] in Links(g.f, s, p[i - 1]);
      NextIsKept(g, s, named, chain, n, c, p[i - 1], p[i]);
    }
  }

  lemma KeptIsUntouched(g: GcFormats, s: Blocks, named: set<Cid>, chain: seq<Cid>, n: nat, c: Collection, b: Cid)
    requires CollectsAlong(g, s, named, chain, n, c) && b in c.keep
    ensures Get(g.f, c.after, b) == Get(g.f, s, b) && b in c.after.files && c.after.files[b] == s.files[b]
  {
  }

  /** In an unbroken walk every block of every path is good. */
  lemma PathIsGood(f: Formats, s: Blocks, root: Cid, p: seq<Cid>, i: nat)
    requires IsPath(f, s, p) && p[0] == root && !Broken(f, s, root) && i < |p|
    ensures Reachable(f, s, root, p[i]) && Good(f, s, p[i])
  {
    assert IsPath(f, s, p[..i + 1]);
  }

  /** If nothing in reach is trimmed, a root's walk is exactly what it was. */
  lemma UntrimmedWalkIsKept(g: GcFormats, s: Blocks, named: set<Cid>, chain: seq<Cid>, n: nat, c: Collection, root: Cid)
    requires Consistent(g) && CollectsAlong(g, s, named, chain, n, c)
    requires IsRoot(g, s, named, chain, n, root) && !Broken(g.f, s, root)
    requires forall d :: Reachable(g.f, s, root, d) ==> d !in c.trim
    ensures !Broken(g.f, c.after, root)
    ensures forall d :: Reachable(g.f, c.after, root, d) <==> Reachable(g.f, s, root, d)
    ensures forall d :: Reachable(g.f, s, root, d) ==> d in c.after.files && c.after.files[d] == s.files[d]
  {
    forall d | Reachable(g.f, s, root, d) ensures d in c.keep {
      var p :| IsPath(g.f, s, p) && p[0] == root && p[|p| - 1] == d;
      forall i | 0 <= i < |p| ensures Good(g.f, s, p[i]) && p[i] !in c.trim {
        PathIsGood(g.f, s, root, p, i);
      }
      UntrimmedPathIsKept(g, s, named, chain, n, c, p, |p| - 1);
    }
    forall d | Reachable(g.f, s, root, d)
      ensures Get(g.f, c.after, d) == Get(g.f, s, d) && d in c.after.files && c.after.files[d] == s.files[d]
    {
      KeptIsUntouched(g, s, named, chain, n, c, d);
    }
    SameReach(g.f, s, c.after, root);
  }

  /** If something in reach is trimmed, the walk now runs into a tombstone. */
  lemma TrimmedWalkBreaks(g: GcFormats, s: Blocks, named: set<Cid>, chain: seq<Cid>, n: nat, c: Collection,
                          root: Cid, d: Cid)
    requires Consistent(g) && CollectsAlong(g, s, named, chain, n, c) && (forall b :: b in chain ==> b in s.files)
    requires IsRoot(g, s, named, chain, n, root) && root !in c.trim && !Broken(g.f, s, root)
    requires Reachable(g.f, s, root, d) && d in c.trim
    ensures exists e :: e in c.trim && Reachable(g.f, c.after, root, e) && Get(g.f, c.after, e) == Ok(Tombstone)
  {
    var p :| IsPath(g.f, s, p) && p[0] == root && p[|p| - 1] == d;
    var m := FirstTrimmed(p, c.trim);
    PrefixIsPath(g.f, s, p, m);
    forall i | 0 <= i < m ensures Good(g.f, s, p[..m][i]) && p[..m][i] !in c.trim {
      PathIsGood(g.f, s, root, p, i);
    }
    forall i | 0 <= i < m ensures Links(g.f, c.after, p[i]) == Links(g.f, s, p[i]) {
      UntrimmedPathIsKept(g, s, named, chain, n, c, p[..m], i);
      assert p[..m][i] == p[i];
      KeptIsUntouched(g, s, named, chain, n, c, p[i]);
    }
    SurvivingPath(g.f, s, c.after, p, m);
    TrimmedIsTombstoned(g, s, named, chain, n, c, p[m]);
  }

  lemma PrefixIsPath(f: Formats, s: Blocks, p: seq<Cid>, m: nat)
    requires IsPath(f, s, p) && 0 < m <= |p|
    ensures IsPath(f, s, p[..m])
  {
    assert forall i :: 0 <= i < m ==> p[..m][i] == p[i];
  }

  lemma SurvivingPath(f: Formats, s: Blocks, t: Blocks, p: seq<Cid>, m: nat)
    requires IsPath(f, s, p) && m < |p|
    requires forall i :: 0 <= i < m ==> Links(f, t, p[i]) == Links(f, s, p[i])
    ensures Reachable(f, t, p[0], p[m])
  {
    var r := p[..m + 1];
    forall i | 0 <= i < |r| - 1 ensures r[i + 1] in Links(f, t, r[i]) {
      assert p[i + 1] in Links(f, s, p[i]);
    }
    assert IsPath(f, t, r);
  }

  lemma TrimmedIsTombstoned(g: GcFormats, s: Blocks, named: set<Cid>, chain: seq<Cid>, n: nat, c: Collection, e: Cid)
    requires CollectsAlong(g, s, named, chain, n, c) && e in c.trim && (forall b :: b in chain ==> b in s.files)
    ensures Get(g.f, c.after, e) == Ok(Tombstone)
  {
    assert e in Oldest(chain, n);
    assert forall b :: b in Oldest(chain, n) ==> b in chain;
    assert e !in c.keep;
  }

  lemma FirstTrimmed(p: seq<Cid>, trim: set<Cid>) returns (m: nat)
    requires p != [] && p[0] !in trim && p[|p| - 1] in trim
    ensures 0 < m < |p| && p[m] in trim && forall i :: 0 <= i < m ==> p[i] !in trim
  {
    m := 1;
    while p[m] !in trim
      invariant 0 < m < |p| && forall i :: 0 <= i < m ==> p[i] !in trim
      decreases |p| - m
    {
      m := m + 1;
    }
  }

  /** What a collection means for the core crate's strict walk.  For a root that is kept and whose walk worked,
      the walk still works exactly when it reaches no trimmed checkpoint; then it finds the same blocks with the
      same bytes, and otherwise it fails on a tombstone. */
  lemma WalksAfterCollection(g: GcFormats, s: Blocks, named: set<Cid>, chain: seq<Cid>, head: Option<Cid>, n: nat,
                             c: Collection, root: Cid)
    requires Consistent(g) && IsChain(g, s, head, chain) && CollectsAlong(g, s, named, chain, n, c)
    requires IsRoot(g, s, named, chain, n, root) && root !in c.trim && !Broken(g.f, s, root)
    ensures !Broken(g.f, c.after, root) <==> forall d :: Reachable(g.f, s, root, d) ==> d !in c.trim
    ensures !Broken(g.f, c.after, root) ==>
              forall d :: Reachable(g.f, c.after, root, d) <==> Reachable(g.f, s, root, d)
    ensures !Broken(g.f, c.after, root) ==>
              forall d :: Reachable(g.f, s, root, d) ==> d in c.after.files && c.after.files[d] == s.files[d]
  {
    if forall d :: Reachable(g.f, s, root, d) ==> d !in c.trim {
      UntrimmedWalkIsKept(g, s, named, chain, n, c, root);
    } else {
      var d :| Reachable(g.f, s, root, d) && d in c.trim;
      TrimmedWalkBreaks(g, s, named, chain, n, c, root, d);
    }
  }

  /** So trimming the chain costs its head its walk: once a checkpoint of the chain is trimmed, the walk - and
      with it the export - of the chain's own head fails, though the head itself is kept. */
  lemma TrimmingBreaksTheHead(g: GcFormats, s: Blocks, named: set<Cid>, chain: seq<Cid>, head: Option<Cid>, n: nat,
                              c: Collection)
    requires Consistent(g) && IsChain(g, s, head, chain) && CollectsAlong(g, s, named, chain, n, c)
    requires chain != [] && chain[0] in named && c.trim != {} && !Broken(g.f, s, chain[0])
    ensures chain[0] in c.after.files && Broken(g.f, c.after, chain[0])
  {
    var k := SomeTrimmed(g, s, named, chain, n, c);
    ChainIsReachable(g, s, chain, head, k);
    WalksAfterCollection(g, s, named, chain, head, n, c, chain[0]);
    RootIsReachable(g.f, s, chain[0]);
    GoodIsReadable(g, s, chain[0]);
    KeptIsUntouched(g, s, named, chain, n, c, chain[0]);
  }

  lemma SomeTrimmed(g: GcFormats, s: Blocks, named: set<Cid>, chain: seq<Cid>, n: nat, c: Collection) returns (k: nat)
    requires CollectsAlong(g, s, named, chain, n, c) && c.trim != {}
    ensures k < |chain| && chain[k] in c.trim
  {
    var d :| d in c.trim;
    assert forall b :: b in Oldest(chain, n) ==> b in chain;
    k :| 0 <= k < |chain| && chain[k] == d;
  }

  lemma {:induction false} ChainIsReachable(g: GcFormats, s: Blocks, chain: seq<Cid>, head: Option<Cid>, k: nat)
    requires Consistent(g) && IsChain(g, s, head, chain) && k < |chain|
    ensures Reachable(g.f, s, chain[0], chain[k])
  {
    if k == 0 {
      RootIsReachable(g.f, s, chain[0]);
    } else {
      ChainIsReachable(g, s, chain, head, k - 1);
      assert g.kind(s.files[chain[k - 1]]).parent == Some(chain[k - 1 + 1]);
      LinksAreReachable(g.f, s, chain[0], chain[k - 1]);
    }
  }

  /** Links a collection leaves dangling lead to a trimmed checkpoint or to a block pruned before. */
  lemma DanglingLinksAreAccountedFor(g: GcFormats, s: Blocks, named: set<Cid>, chain: seq<Cid>, n: nat, c: Collection,
                                     b: Cid, d: Cid)
    requires CollectsAlong(g, s, named, chain, n, c)
    requires b in c.keep && d in BlockLinks(g, c.after, b) && d !in c.after.files
    ensures d in c.trim || Gone(g, s, d)
    ensures d in c.after.pruned || d !in s.files
  {
    KeptIsUntouched(g, s, named, chain, n, c, b);
    assert BlockLinks(g, c.after, b) == BlockLinks(g, s, b);
  }
}
