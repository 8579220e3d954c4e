/** The graph of linked blocks and its two walks: the recursive depth-first `walk_inner` and the level-batched
    `walk_batched` (crates/core/src/binding.rs).

    The hash and the record decoder are parameters: everything here holds for every one of them. */
module Graph {
  import opened Basics

  type Digest = seq<bv8>

  datatype Cid = Cid(codec: nat, hashCode: nat, digest: Digest)

  const DAG_CBOR: nat := 0x71
  const SHA2_256: nat := 0x12

  /** What bytes decode to: no record at all, or a record whose links can or cannot be read. */
  datatype Decoded = Garbage | Decoded(links: Option<seq<Cid>>)

  /** The formats the store relies on. */
  datatype Formats = Formats(hash: Bytes -> Digest, decode: Bytes -> Decoded)

  /** The block files by CID, and the CIDs whose pruning the ledger records. */
  datatype Blocks = Blocks(files: map<Cid, Bytes>, pruned: set<Cid>)

  datatype Error = CidNotFound(cid: Cid) | Tombstoned(cid: Cid) | Unreadable(cid: Cid)

  datatype Record = Live(links: Option<seq<Cid>>) | Tombstone

  /** The CID the block layer gives to encoded bytes. */
  function Compute(f: Formats, bytes: Bytes): Cid {
    Cid(DAG_CBOR, SHA2_256, f.hash(bytes))
  }

  /** A present block is one whose bytes hash to its name; an absent one may have been pruned on purpose. */
  function Get(f: Formats, s: Blocks, cid: Cid): Result<Record, Error> {
    if cid in s.files && Compute(f, s.files[cid]) == cid then
      match f.decode(s.files[cid])
      case Garbage => Err(CidNotFound(cid))
      case Decoded(links) => Ok(Live(links))
    else if cid in s.pruned then Ok(Tombstone)
    else Err(CidNotFound(cid))
  }

  // ---- the reference: reachability ----------------------------------------------------------------

  /** A block a walk can pass through: live, decodable, with readable links. */
  predicate Good(f: Formats, s: Blocks, cid: Cid) {
    var r := Get(f, s, cid);
    r.Ok? && r.value.Live? && r.value.links.Some?
  }

  function Links(f: Formats, s: Blocks, cid: Cid): seq<Cid> {
    if Good(f, s, cid) then Get(f, s, cid).value.links.value else []
  }

  predicate IsPath(f: Formats, s: Blocks, p: seq<Cid>) {
    p != [] && forall i :: 0 <= i < |p| - 1 ==> p[i + 1] in Links(f, s, p[i])
  }

  ghost predicate Reachable(f: Formats, s: Blocks, root: Cid, cid: Cid) {
    exists p :: IsPath(f, s, p) && p[0] == root && p[|p| - 1] == cid
  }

  predicate Closed(f: Formats, s: Blocks, cids: set<Cid>) {
    forall c :: c in cids ==> forall d :: d in Links(f, s, c) ==> d in cids
  }

  lemma {:induction false} PathStaysInside(f: Formats, s: Blocks, cids: set<Cid>, p: seq<Cid>)
    requires Closed(f, s, cids) && IsPath(f, s, p) && p[0] in cids
    ensures p[|p| - 1] in cids
  {
    if |p| > 1 {
      var q := p[..|p| - 1];
      PathStaysInside(f, s, cids, q);
      assert p[|p| - 1] in Links(f, s, p[|p| - 2]);
    }
  }

  lemma ClosedHoldsReachable(f: Formats, s: Blocks, cids: set<Cid>, root: Cid)
    requires Closed(f, s, cids) && root in cids
    ensures forall c :: Reachable(f, s, root, c) ==> c in cids
  {
    forall c | Reachable(f, s, root, c) ensures c in cids {
      var p :| IsPath(f, s, p) && p[0] == root && p[|p| - 1] == c;
      PathStaysInside(f, s, cids, p);
    }
  }

  lemma RootIsReachable(f: Formats, s: Blocks, root: Cid)
    ensures Reachable(f, s, root, root)
  {
    assert IsPath(f, s, [root]);
  }

  lemma LinksAreReachable(f: Formats, s: Blocks, root: Cid, c: Cid)
    requires Reachable(f, s, root, c)
    ensures forall d :: d in Links(f, s, c) ==> Reachable(f, s, root, d)
  {
    var p :| IsPath(f, s, p) && p[0] == root && p[|p| - 1] == c;
    forall d | d in Links(f, s, c) ensures Reachable(f, s, root, d) {
      assert IsPath(f, s, p + [d]);
    }
  }

  lemma ReachableIsTransitive(f: Formats, s: Blocks, a: Cid, b: Cid, c: Cid)
    requires Reachable(f, s, a, b) && Reachable(f, s, b, c)
    ensures Reachable(f, s, a, c)
  {
    var p :| IsPath(f, s, p) && p[0] == a && p[|p| - 1] == b;
    var q :| IsPath(f, s, q) && q[0] == b && q[|q| - 1] == c;
    var r := p + q[1..];
    forall i | 0 <= i < |r| - 1 ensures r[i + 1] in Links(f, s, r[i]) {
      if i >= |p| - 1 {
        var j := i - (|p| - 1);
        assert r[i] == q[j] && r[i + 1] == q[j + 1];
      }
    }
    assert r[|r| - 1] == q[|q| - 1];
    assert IsPath(f, s, r);
  }

  lemma {:induction false} SamePath(f: Formats, s: Blocks, t: Blocks, root: Cid, p: seq<Cid>)
    requires forall c :: Reachable(f, s, root, c) ==> Links(f, s, c) == Links(f, t, c)
    requires p != [] && p[0] == root
    ensures IsPath(f, s, p) <==> IsPath(f, t, p)
    ensures IsPath(f, s, p) ==> Reachable(f, s, root, p[|p| - 1])
  {
    RootIsReachable(f, s, root);
    if |p| > 1 {
      var n := |p| - 1;
      var q := p[..n];
      SamePath(f, s, t, root, q);
      assert IsPath(f, s, p) <==> IsPath(f, s, q) && p[n] in Links(f, s, p[n - 1]) by { PathSnoc(f, s, p); }
      assert IsPath(f, t, p) <==> IsPath(f, t, q) && p[n] in Links(f, t, p[n - 1]) by { PathSnoc(f, t, p); }
    }
  }

  lemma PathSnoc(f: Formats, s: Blocks, p: seq<Cid>)
    requires |p| > 1
    ensures IsPath(f, s, p) <==> IsPath(f, s, p[..|p| - 1]) && p[|p| - 1] in Links(f, s, p[|p| - 2])
  {
  }

  /** A store that returns the same record for everything in reach has the same reach. */
  lemma SameReach(f: Formats, s: Blocks, t: Blocks, root: Cid)
    requires forall c :: Reachable(f, s, root, c) ==> Get(f, t, c) == Get(f, s, c)
    ensures forall c :: Reachable(f, t, root, c) <==> Reachable(f, s, root, c)
  {
    forall c ensures Reachable(f, t, root, c) <==> Reachable(f, s, root, c) {
      if Reachable(f, t, root, c) {
        var p :| IsPath(f, t, p) && p[0] == root && p[|p| - 1] == c;
        SamePath(f, s, t, root, p);
      }
      if Reachable(f, s, root, c) {
        var p :| IsPath(f, s, p) && p[0] == root && p[|p| - 1] == c;
        SamePath(f, s, t, root, p);
      }
    }
  }

  /** Some block in the reach of `root` cannot be passed through. */
  ghost predicate Broken(f: Formats, s: Blocks, root: Cid) {
    exists c :: Reachable(f, s, root, c) && !Good(f, s, c)
  }

  /** The block is there, under the node codec, and its bytes hash to its name. */
  predicate IsThere(f: Formats, s: Blocks, c: Cid) {
    c in s.files && c.codec == 0x71 && c.hashCode == 0x12 && f.hash(s.files[c]) == c.digest
  }

  /** A good block is there and decodes to a record with readable links, and those are its links. */
  lemma GoodExactlyWhen(f: Formats, s: Blocks, c: Cid)
    ensures Good(f, s, c) <==> IsThere(f, s, c) && f.decode(s.files[c]).Decoded? && f.decode(s.files[c]).links.Some?
    ensures Good(f, s, c) ==> Links(f, s, c) == f.decode(s.files[c]).links.value
  {
  }

  /** An error is true: the block it names is in reach, and is what the error says: pruned and not there; there with
      unreadable links; or neither there nor pruned, or there and no record. */
  ghost predicate ErrorIsTrue(f: Formats, s: Blocks, root: Cid, e: Error) {
    && Reachable(f, s, root, e.cid)
    && match e
       case Tombstoned(c) => !IsThere(f, s, c) && c in s.pruned
       case Unreadable(c) => IsThere(f, s, c) && f.decode(s.files[c]) == Decoded(None)
       case CidNotFound(c) => if IsThere(f, s, c) then f.decode(s.files[c]) == Garbage else c !in s.pruned
  }

  predicate NoDuplicates<T(==)>(q: seq<T>) {
    forall i, j :: 0 <= i < j < |q| ==> q[i] != q[j]
  }

  /** `q` lists exactly what is reachable from `root`, each once. */
  ghost predicate ListsReach(f: Formats, s: Blocks, root: Cid, q: seq<Cid>) {
    NoDuplicates(q) && forall c :: c in q <==> Reachable(f, s, root, c)
  }

  // ---- the recursive walk -------------------------------------------------------------------------

  function Members(q: seq<Cid>): set<Cid> {
    set c | c in q
  }

  /** What a call may assume and must keep: `out` lists the visited blocks that turned out good. */
  predicate Tidy(visited: set<Cid>, out: seq<Cid>) {
    NoDuplicates(out) && Members(out) <= visited
  }

  /** From `before` to `after`, everything newly visited is good, listed, and has all its links visited. */
  predicate Covers(f: Formats, s: Blocks, before: set<Cid>, after: set<Cid>, out: seq<Cid>, out': seq<Cid>) {
    && before <= after
    && Tidy(after, out')
    && Members(out') == Members(out) + (after - before)
    && forall c :: c in after - before ==> Good(f, s, c) && forall d :: d in Links(f, s, c) ==> d in after
  }

  method WalkInner(f: Formats, s: Blocks, root: Cid, visited0: set<Cid>, out0: seq<Cid>)
    returns (r: Result<(), Error>, visited: set<Cid>, out: seq<Cid>)
    requires Tidy(visited0, out0)
    ensures visited0 <= visited && root in visited
    ensures forall c :: c in visited - visited0 ==> Reachable(f, s, root, c)
    ensures r.Ok? ==> Covers(f, s, visited0, visited, out0, out)
    ensures r.Err? ==> Broken(f, s, root) && ErrorIsTrue(f, s, root, r.error)
    decreases s.files.Keys - visited0, 1
  {
    visited, out := visited0, out0;
    RootIsReachable(f, s, root);
    if root in visited {
      return Ok(()), visited, out;
    }
    visited := visited + {root};
    var record := Get(f, s, root);
    if record.Err? {
      return Err(record.error), visited, out;
    }
    if record.value.Tombstone? {
      return Err(Tombstoned(root)), visited, out;
    }
    out := out + [root];
    if record.value.links.None? {
      return Err(Unreadable(root)), visited, out;
    }
    r, visited, out := WalkChildren(f, s, root, record.value.links.value, visited0, visited, out0, out);
  }

  lemma FromChild(f: Formats, s: Blocks, root: Cid, child: Cid, cids: set<Cid>)
    requires Reachable(f, s, root, child) && forall c :: c in cids ==> Reachable(f, s, child, c)
    ensures forall c :: c in cids ==> Reachable(f, s, root, c)
  {
    forall c | c in cids ensures Reachable(f, s, root, c) {
      ReachableIsTransitive(f, s, root, child, c);
    }
  }

  lemma BrokenChild(f: Formats, s: Blocks, root: Cid, child: Cid, e: Error)
    requires Reachable(f, s, root, child) && Broken(f, s, child) && ErrorIsTrue(f, s, child, e)
    ensures Broken(f, s, root) && ErrorIsTrue(f, s, root, e)
  {
    var c :| Reachable(f, s, child, c) && !Good(f, s, c);
    ReachableIsTransitive(f, s, root, child, c);
    ReachableIsTransitive(f, s, root, child, e.cid);
  }

  /** How far the loop over a block's links has come. */
  ghost predicate Partway(f: Formats, s: Blocks, root: Cid, visited0: set<Cid>, visited1: set<Cid>, visited: set<Cid>,
                          out0: seq<Cid>, out: seq<Cid>) {
    && visited1 <= visited
    && (forall c :: c in visited - visited0 ==> Reachable(f, s, root, c))
    && Tidy(visited, out) && Members(out) == Members(out0) + (visited - visited0)
    && forall c :: c in visited - visited1 ==> Good(f, s, c) && forall d :: d in Links(f, s, c) ==> d in visited
  }

  lemma NextChild(f: Formats, s: Blocks, root: Cid, child: Cid, visited0: set<Cid>, visited1: set<Cid>,
                  before: set<Cid>, visited: set<Cid>, out0: seq<Cid>, outBefore: seq<Cid>, out: seq<Cid>)
    requires Partway(f, s, root, visited0, visited1, before, out0, outBefore)
    requires visited0 <= visited1 && Reachable(f, s, root, child)
    requires Covers(f, s, before, visited, outBefore, out)
    requires forall c :: c in visited - before ==> Reachable(f, s, child, c)
    ensures Partway(f, s, root, visited0, visited1, visited, out0, out)
  {
    FromChild(f, s, root, child, visited - before);
  }

  lemma AllChildren(f: Formats, s: Blocks, root: Cid, visited0: set<Cid>, visited: set<Cid>, out0: seq<Cid>,
                    out: seq<Cid>)
    requires Partway(f, s, root, visited0, visited0 + {root}, visited, out0, out) && Good(f, s, root)
    requires forall d :: d in Links(f, s, root) ==> d in visited
    ensures Covers(f, s, visited0, visited, out0, out)
  {
  }

  lemma ChildFails(f: Formats, s: Blocks, root: Cid, child: Cid, visited0: set<Cid>, visited1: set<Cid>,
                   before: set<Cid>, visited: set<Cid>, out0: seq<Cid>, outBefore: seq<Cid>, e: Error)
    requires Partway(f, s, root, visited0, visited1, before, out0, outBefore) && Reachable(f, s, root, child)
    requires before <= visited && Broken(f, s, child) && ErrorIsTrue(f, s, child, e)
    requires forall c :: c in visited - before ==> Reachable(f, s, child, c)
    ensures visited1 <= visited && forall c :: c in visited - visited0 ==> Reachable(f, s, root, c)
    ensures Broken(f, s, root) && ErrorIsTrue(f, s, root, e)
  {
    FromChild(f, s, root, child, visited - before);
    BrokenChild(f, s, root, child, e);
  }

  /** The loop over a block's links. */
  method WalkChildren(f: Formats, s: Blocks, root: Cid, links: seq<Cid>, ghost visited0: set<Cid>, visited1: set<Cid>,
                      ghost out0: seq<Cid>, out1: seq<Cid>)
    returns (r: Result<(), Error>, visited: set<Cid>, out: seq<Cid>)
    requires Tidy(visited0, out0) && root !in visited0 && visited1 == visited0 + {root} && out1 == out0 + [root]
    requires Good(f, s, root) && links == Links(f, s, root)
    ensures visited1 <= visited
    ensures forall c :: c in visited - visited0 ==> Reachable(f, s, root, c)
    ensures r.Ok? ==> Covers(f, s, visited0, visited, out0, out)
    ensures r.Err? ==> Broken(f, s, root) && ErrorIsTrue(f, s, root, r.error)
    decreases s.files.Keys - visited1, 2
  {
    visited, out := visited1, out1;
    RootIsReachable(f, s, root);
    LinksAreReachable(f, s, root, root);
    var i := 0;
    while i < |links|
      invariant 0 <= i <= |links|
      invariant Partway(f, s, root, visited0, visited1, visited, out0, out)
      invariant forall j :: 0 <= j < i ==> links[j] in visited
    {
      var child := links[i];
      ghost var before, outBefore := visited, out;
      r, visited, out := WalkInner(f, s, child, visited, out);
      if r.Err? {
        ChildFails(f, s, root, child, visited0, visited1, before, visited, out0, outBefore, r.error);
        return;
      }
      NextChild(f, s, root, child, visited0, visited1, before, visited, out0, outBefore, out);
      i := i + 1;
    }
    AllChildren(f, s, root, visited0, visited, out0, out);
    r := Ok(());
  }

  /** The depth-first walk: it succeeds exactly when nothing in reach is broken, and then lists the reach. */
  method Walk(f: Formats, s: Blocks, root: Cid) returns (r: Result<seq<Cid>, Error>)
    ensures r.Ok? <==> !Broken(f, s, root)
    ensures r.Err? ==> ErrorIsTrue(f, s, root, r.error)
    ensures r.Ok? ==> ListsReach(f, s, root, r.value)
  {
    var done, visited, out := WalkInner(f, s, root, {}, []);
    if done.Err? {
      return Err(done.error);
    }
    assert Closed(f, s, visited);
    ClosedHoldsReachable(f, s, visited, root);
    assert forall c :: c in out <==> c in Members(out);
    r := Ok(out);
  }

  // ---- the level-batched walk ---------------------------------------------------------------------

  /** Look up many blocks at once; one that cannot be read is simply left out. */
  method GetMany(f: Formats, s: Blocks, cids: seq<Cid>) returns (found: map<Cid, Record>)
    ensures forall c :: c in found <==> c in cids && Get(f, s, c).Ok?
    ensures forall c :: c in found ==> Get(f, s, c) == Ok(found[c])
  {
    found := map[];
    for i := 0 to |cids|
      invariant forall c :: c in found <==> c in cids[..i] && Get(f, s, c).Ok?
      invariant forall c :: c in found ==> Get(f, s, c) == Ok(found[c])
    {
      var r := Get(f, s, cids[i]);
      if r.Ok? {
        found := found[cids[i] := r.value];
      }
    }
    assert cids[..|cids|] == cids;
  }

  /** A search in progress: `queue` holds everything met, each once and all in reach; its first `n` are good
      and all their links have been met. */
  ghost predicate Searching(f: Formats, s: Blocks, root: Cid, queue: seq<Cid>, n: nat) {
    && n <= |queue| && NoDuplicates(queue) && root in queue
    && (forall c :: c in queue ==> Reachable(f, s, root, c))
    && (forall i :: 0 <= i < n ==> Good(f, s, queue[i]) && forall d :: d in Links(f, s, queue[i]) ==> d in queue)
  }

  lemma AppendNew(queue: seq<Cid>, c: Cid)
    requires NoDuplicates(queue) && c !in queue
    ensures NoDuplicates(queue + [c]) && Members(queue + [c]) == Members(queue) + {c}
    ensures forall d :: d in queue + [c] <==> d in queue || d == c
  {
  }

  /** What has been met so far: `met` and the next level, each block once and all in reach. */
  ghost predicate MetSoFar(f: Formats, s: Blocks, root: Cid, met: seq<Cid>, frontier: seq<Cid>, visited: set<Cid>) {
    && NoDuplicates(met + frontier) && visited == Members(met + frontier)
    && forall c :: c in met + frontier ==> Reachable(f, s, root, c)
  }

  lemma MeetOneMore(f: Formats, s: Blocks, root: Cid, met: seq<Cid>, frontier: seq<Cid>, visited: set<Cid>, c: Cid)
    requires MetSoFar(f, s, root, met, frontier, visited) && c !in visited && Reachable(f, s, root, c)
    ensures MetSoFar(f, s, root, met, frontier + [c], visited + {c})
  {
    Regroup(met, frontier, [c]);
    AppendNew(met + frontier, c);
  }

  /** Push the links of a block that have not been met. */
  method PushLinks(f: Formats, s: Blocks, root: Cid, links: seq<Cid>, visited0: set<Cid>, ghost met: seq<Cid>,
                   frontier0: seq<Cid>)
    returns (visited: set<Cid>, frontier: seq<Cid>)
    requires forall i :: 0 <= i < |links| ==> Reachable(f, s, root, links[i])
    requires MetSoFar(f, s, root, met, frontier0, visited0)
    ensures frontier0 <= frontier && MetSoFar(f, s, root, met, frontier, visited)
    ensures forall d :: d in links ==> d in visited
  {
    visited, frontier := visited0, frontier0;
    for i := 0 to |links|
      invariant frontier0 <= frontier && MetSoFar(f, s, root, met, frontier, visited)
      invariant forall j :: 0 <= j < i ==> links[j] in visited
    {
      visited, frontier := PushOne(f, s, root, links[i], visited, met, frontier);
    }
  }

  method PushOne(f: Formats, s: Blocks, root: Cid, c: Cid, visited0: set<Cid>, ghost met: seq<Cid>, frontier0: seq<Cid>)
    returns (visited: set<Cid>, frontier: seq<Cid>)
    requires Reachable(f, s, root, c) && MetSoFar(f, s, root, met, frontier0, visited0)
    ensures frontier0 <= frontier && MetSoFar(f, s, root, met, frontier, visited)
    ensures visited == visited0 + {c}
  {
    visited, frontier := visited0, frontier0;
    if c !in visited {
      MeetOneMore(f, s, root, met, frontier, visited, c);
      visited := visited + {c};
      frontier := frontier + [c];
    }
  }

  /** Visit one block of a level: list it and push its links. */
  method Visit(f: Formats, s: Blocks, root: Cid, cid: Cid, record: Option<Record>, visited0: set<Cid>,
               ghost met: seq<Cid>, frontier0: seq<Cid>, ghost n: nat)
    returns (r: Result<(), Error>, visited: set<Cid>, frontier: seq<Cid>)
    requires Searching(f, s, root, met + frontier0, n) && visited0 == Members(met + frontier0)
    requires n < |met| && met[n] == cid
    requires record == (match Get(f, s, cid) case Ok(x) => Some(x) case Err(_) => None)
    ensures r.Ok? ==> Searching(f, s, root, met + frontier, n + 1) && visited == Members(met + frontier)
    ensures r.Err? ==> Broken(f, s, root) && ErrorIsTrue(f, s, root, r.error)
  {
    visited, frontier := visited0, frontier0;
    assert (met + frontier)[n] == cid && cid in met + frontier;
    if record.None? {
      assert !Good(f, s, cid);
      return Err(CidNotFound(cid)), visited, frontier;
    }
    if record.value.Tombstone? {
      assert !Good(f, s, cid);
      return Err(Tombstoned(cid)), visited, frontier;
    }
    if record.value.links.None? {
      assert !Good(f, s, cid);
      return Err(Unreadable(cid)), visited, frontier;
    }
    LinksAreReachable(f, s, root, cid);
    visited, frontier := PushLinks(f, s, root, record.value.links.value, visited, met, frontier);
    SearchGrows(f, s, root, met + frontier0, met + frontier, n);
    r := Ok(());
  }

  lemma SearchGrows(f: Formats, s: Blocks, root: Cid, p: seq<Cid>, q: seq<Cid>, n: nat)
    requires Searching(f, s, root, p, n) && n < |p| && p <= q && NoDuplicates(q)
    requires forall c :: c in q ==> Reachable(f, s, root, c)
    requires Good(f, s, p[n]) && forall d :: d in Links(f, s, p[n]) ==> d in q
    ensures Searching(f, s, root, q, n + 1)
  {
    InPrefix(p, q);
    forall i | 0 <= i < n + 1 ensures Good(f, s, q[i]) && forall d :: d in Links(f, s, q[i]) ==> d in q {
      assert q[i] == p[i];
    }
  }

  lemma InPrefix(p: seq<Cid>, q: seq<Cid>)
    requires p <= q
    ensures (forall c :: c in p ==> c in q) && forall i :: 0 <= i < |p| ==> q[i] == p[i]
  {
  }

  lemma NextOfLevel(out: seq<Cid>, level: seq<Cid>, i: nat)
    requires i < |level|
    ensures (out + level)[|out| + i] == level[i]
    ensures out + level[..i] + [level[i]] == out + level[..i + 1]
  {
    assert level[..i + 1] == level[..i] + [level[i]];
    Regroup(out, level[..i], [level[i]]);
  }

  /** One level: every block of it is looked up at once, then visited in turn; the links met for the first time
      form the next level. */
  method WalkLevel(f: Formats, s: Blocks, root: Cid, level: seq<Cid>, visited0: set<Cid>, out0: seq<Cid>)
    returns (r: Result<(), Error>, visited: set<Cid>, out: seq<Cid>, frontier: seq<Cid>)
    requires Searching(f, s, root, out0 + level, |out0|) && visited0 == Members(out0 + level)
    ensures r.Ok? ==> out == out0 + level
    ensures r.Ok? ==> Searching(f, s, root, out + frontier, |out|) && visited == Members(out + frontier)
    ensures r.Err? ==> Broken(f, s, root) && ErrorIsTrue(f, s, root, r.error)
  {
    visited, out, frontier := visited0, out0, [];
    var fetched := GetMany(f, s, level);
    ghost var met := out0 + level;
    assert met + [] == met;
    var i := 0;
    while i < |level|
      invariant 0 <= i <= |level|
      invariant out == out0 + level[..i]
      invariant Searching(f, s, root, met + frontier, |out0| + i) && visited == Members(met + frontier)
    {
      NextOfLevel(out0, level, i);
      r, visited, frontier :=
        Visit(f, s, root, level[i], Lookup(fetched, level[i]), visited, met, frontier, |out0| + i);
      if r.Err? {
        return;
      }
      out := out + [level[i]];
      i := i + 1;
    }
    assert level[..i] == level && out == met;
    r := Ok(());
  }

  lemma FewerUnlisted(a: seq<Cid>, b: seq<Cid>, keys: set<Cid>)
    requires NoDuplicates(a + b) && b != [] && b[0] in keys
    ensures keys - Members(a + b) < keys - Members(a)
  {
    forall i | 0 <= i < |a| ensures a[i] != b[0] {
      assert (a + b)[i] == a[i] && (a + b)[|a|] == b[0];
    }
    assert (a + b)[|a|] == b[0];
    assert b[0] in keys - Members(a) && b[0] !in keys - Members(a + b);
  }

  /** The batched walk: it succeeds exactly when the recursive one does, and lists the same blocks. */
  method WalkBatched(f: Formats, s: Blocks, root: Cid) returns (r: Result<seq<Cid>, Error>)
    ensures r.Ok? <==> !Broken(f, s, root)
    ensures r.Err? ==> ErrorIsTrue(f, s, root, r.error)
    ensures r.Ok? ==> ListsReach(f, s, root, r.value)
  {
    var visited, out, frontier := {root}, [], [root];
    RootIsReachable(f, s, root);
    while frontier != []
      invariant Searching(f, s, root, out + frontier, |out|) && visited == Members(out + frontier)
      decreases s.files.Keys - Members(out)
    {
      var level := frontier;
      ghost var before := out;
      var done;
      done, visited, out, frontier := WalkLevel(f, s, root, level, visited, out);
      if done.Err? {
        return Err(done.error);
      }
      assert Good(f, s, (out + frontier)[|before|]);
      assert level[0] in s.files;
      FewerUnlisted(before, level, s.files.Keys);
    }
    assert out + frontier == out;
    assert Closed(f, s, Members(out));
    ClosedHoldsReachable(f, s, Members(out), root);
    r := Ok(out);
  }

  // ---- what the two have in common ----------------------------------------------------------------

  function Total(s: Blocks, q: seq<Cid>): nat {
    if q == [] then 0 else Total(s, q[1..]) + (if q[0] in s.files then |s.files[q[0]]| else 0)
  }

  lemma {:induction false} TotalOfSplit(s: Blocks, a: seq<Cid>, b: seq<Cid>)
    ensures Total(s, a + b) == Total(s, a) + Total(s, b)
  {
    if a == [] {
      assert a + b == b;
    } else {
      assert (a + b)[1..] == a[1..] + b;
      TotalOfSplit(s, a[1..], b);
    }
  }

  lemma TotalAround(s: Blocks, a: seq<Cid>, c: Cid, b: seq<Cid>)
    ensures Total(s, a + ([c] + b)) == Total(s, [c]) + Total(s, a + b)
  {
    TotalOfSplit(s, a, [c] + b);
    TotalOfSplit(s, [c], b);
    TotalOfSplit(s, a, b);
  }

  /** A listing less one of its blocks. */
  lemma LessOne(s: Blocks, q: seq<Cid>, c: Cid) returns (r: seq<Cid>)
    requires NoDuplicates(q) && c in q
    ensures NoDuplicates(r) && |q| == |r| + 1 && Total(s, q) == Total(s, [c]) + Total(s, r)
    ensures forall d :: d in r <==> d in q && d != c
  {
    var k :| 0 <= k < |q| && q[k] == c;
    var a, b := q[..k], q[k + 1..];
    assert q == a + ([c] + b);
    Without(a, c, b);
    TotalAround(s, a, c, b);
    r := a + b;
  }

  /** Listings of the same blocks, in whatever order, weigh the same. */
  lemma {:induction false} SameMembersSameTotal(s: Blocks, p: seq<Cid>, q: seq<Cid>)
    requires NoDuplicates(p) && NoDuplicates(q) && forall c :: c in p <==> c in q
    ensures |p| == |q| && Total(s, p) == Total(s, q)
    decreases |p|
  {
    if p == [] {
      FirstIsMember(q);
    } else {
      var c := p[0];
      var p' := LessOne(s, p, c);
      var q' := LessOne(s, q, c);
      SameMembersSameTotal(s, p', q');
    }
  }

  lemma FirstIsMember(q: seq<Cid>)
    ensures q != [] ==> exists c :: c in q
  {
    if q != [] {
      assert q[0] in q;
    }
  }

  lemma Without(a: seq<Cid>, c: Cid, b: seq<Cid>)
    requires NoDuplicates(a + ([c] + b))
    ensures NoDuplicates(a + b)
    ensures forall d :: d in a + b <==> d in a + ([c] + b) && d != c
  {
    var q := a + ([c] + b);
    assert q[|a|] == c;
    forall i | 0 <= i < |a + b| ensures (a + b)[i] == q[if i < |a| then i else i + 1] {}
    forall d | d in q && d != c ensures d in a + b {
      var i :| 0 <= i < |q| && q[i] == d;
      assert (a + b)[if i < |a| then i else i - 1] == d;
    }
  }

  /** Any two walks of the same root agree on the blocks they list, on their number and on their total size. */
  lemma ListingsAgree(f: Formats, s: Blocks, root: Cid, p: seq<Cid>, q: seq<Cid>)
    requires ListsReach(f, s, root, p) && ListsReach(f, s, root, q)
    ensures Members(p) == Members(q) && |p| == |q| && Total(s, p) == Total(s, q)
  {
    SameMembersSameTotal(s, p, q);
  }
}
