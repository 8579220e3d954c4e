/** Moving a graph between stores as a verified archive (crates/core/src/car.rs and the import and export of
    crates/core/src/binding.rs).  An archive is modelled by what its framing carries: roots and blocks. */
module Car {
  import opened Basics
  import opened Graph

  datatype Block = Block(cid: Cid, bytes: Bytes)

  datatype Archive = Archive(roots: seq<Cid>, blocks: seq<Block>)

  datatype Refusal = WalkFailed | BlockMissing(cid: Cid) | Mismatch(index: nat) | NoRoot | Conflict(cid: Cid)

  // ---- verification -------------------------------------------------------------------------------

  /** Recompute a block's CID under its own codec; only SHA2-256 is ever trusted. */
  predicate VerifyBlock(f: Formats, b: Block) {
    b.cid.hashCode == SHA2_256 && Cid(b.cid.codec, SHA2_256, f.hash(b.bytes)) == b.cid
  }

  /** The first block that does not verify fails the whole read. */
  method ReadVerified(f: Formats, car: Archive) returns (r: Result<Archive, Refusal>)
    ensures r.Ok? <==> forall i :: 0 <= i < |car.blocks| ==> VerifyBlock(f, car.blocks[i])
    ensures r.Ok? ==> r.value == car
    ensures r.Err? ==> r.error.Mismatch? && r.error.index < |car.blocks| && !VerifyBlock(f, car.blocks[r.error.index])
                       && forall j :: 0 <= j < r.error.index ==> VerifyBlock(f, car.blocks[j])
  {
    var blocks: seq<Block> := [];
    var i := 0;
    while i < |car.blocks|
      invariant 0 <= i <= |car.blocks| && blocks == car.blocks[..i]
      invariant forall j :: 0 <= j < i ==> VerifyBlock(f, car.blocks[j])
    {
      if !VerifyBlock(f, car.blocks[i]) {
        return Err(Mismatch(i));
      }
      blocks := blocks + [car.blocks[i]];
      i := i + 1;
    }
    assert blocks == car.blocks;
    r := Ok(Archive(car.roots, blocks));
  }

  /** Every stored block hashes to its name. */
  predicate Intact(f: Formats, s: Blocks) {
    forall c :: c in s.files ==> VerifyBlock(f, Block(c, s.files[c]))
  }

  // ---- export -------------------------------------------------------------------------------------

  /** An archive of everything in reach of `root`: each block once, with the bytes the store holds. */
  ghost predicate Exports(f: Formats, s: Blocks, root: Cid, car: Archive) {
    && car.roots == [root]
    && ListsReach(f, s, root, Cids(car.blocks))
    && forall i :: 0 <= i < |car.blocks| ==>
         car.blocks[i].cid in s.files && car.blocks[i].bytes == s.files[car.blocks[i].cid]
  }

  function Cids(blocks: seq<Block>): (r: seq<Cid>)
    ensures |r| == |blocks| && forall i :: 0 <= i < |r| ==> r[i] == blocks[i].cid
  {
    seq(|blocks|, i requires 0 <= i < |blocks| => blocks[i].cid)
  }

  /** Export walks, then reads each block back.  It succeeds exactly when nothing in reach is broken. */
  method ExportCar(f: Formats, s: Blocks, root: Cid) returns (r: Result<Archive, Refusal>)
    ensures r.Ok? <==> !Broken(f, s, root)
    ensures r.Ok? ==> Exports(f, s, root, r.value)
  {
    var cids := Walk(f, s, root);
    if cids.Err? {
      return Err(WalkFailed);
    }
    var blocks: seq<Block> := [];
    for i := 0 to |cids.value|
      invariant |blocks| == i
      invariant forall j :: 0 <= j < i ==>
                  cids.value[j] in s.files && blocks[j] == Block(cids.value[j], s.files[cids.value[j]])
    {
      var c := cids.value[i];
      assert c in cids.value && Good(f, s, c);
      blocks := blocks + [Block(c, s.files[c])];
    }
    assert Cids(blocks) == cids.value;
    r := Ok(Archive([root], blocks));
  }

  /** The dry run: the CIDs by the batched walk, and their total size, with nothing written. */
  method ExportManifest(f: Formats, s: Blocks, root: Cid) returns (r: Result<(seq<Cid>, nat), Error>)
    ensures r.Ok? <==> !Broken(f, s, root)
    ensures r.Ok? ==> ListsReach(f, s, root, r.value.0) && r.value.1 == Total(s, r.value.0)
  {
    var cids := WalkBatched(f, s, root);
    if cids.Err? {
      return Err(cids.error);
    }
    var total := 0;
    for i := 0 to |cids.value|
      invariant total == Total(s, cids.value[..i])
    {
      var c := cids.value[i];
      assert c in cids.value && Good(f, s, c);
      TotalOfSplit(s, cids.value[..i], [c]);
      assert cids.value[..i + 1] == cids.value[..i] + [c];
      total := total + |s.files[c]|;
    }
    assert cids.value[..|cids.value|] == cids.value;
    r := Ok((cids.value, total));
  }

  function Size(blocks: seq<Block>): nat {
    if blocks == [] then 0 else Size(blocks[1..]) + |blocks[0].bytes|
  }

  lemma {:induction false} SizeIsTotal(s: Blocks, blocks: seq<Block>)
    requires forall i :: 0 <= i < |blocks| ==> blocks[i].cid in s.files && blocks[i].bytes == s.files[blocks[i].cid]
    ensures Size(blocks) == Total(s, Cids(blocks))
  {
    if blocks != [] {
      SizeIsTotal(s, blocks[1..]);
      assert Cids(blocks)[1..] == Cids(blocks[1..]);
    }
  }

  /** The manifest tells the truth about the archive: the same CIDs, as many, and as many bytes. */
  lemma ManifestMatchesArchive(f: Formats, s: Blocks, root: Cid, car: Archive, cids: seq<Cid>)
    requires Exports(f, s, root, car) && ListsReach(f, s, root, cids)
    ensures Members(cids) == Members(Cids(car.blocks)) && |cids| == |car.blocks| && Total(s, cids) == Size(car.blocks)
  {
    ListingsAgree(f, s, root, cids, Cids(car.blocks));
    SizeIsTotal(s, car.blocks);
  }

  // ---- import -------------------------------------------------------------------------------------

  /** The files after blocks are written in order. */
  function Written(files: map<Cid, Bytes>, blocks: seq<Block>): map<Cid, Bytes> {
    if blocks == [] then files
    else Written(files, blocks[..|blocks| - 1])[blocks[|blocks| - 1].cid := blocks[|blocks| - 1].bytes]
  }

  class BlockStore {
    const f: Formats
    var files: map<Cid, Bytes>
    var pruned: set<Cid>
    var names: map<string, Cid>

    ghost function Abs(): Blocks
      reads this
    {
      Blocks(files, pruned)
    }

    constructor (f: Formats, s: Blocks, names: map<string, Cid>)
      ensures this.f == f && Abs() == s && this.names == names
    {
      this.f, files, pruned, this.names := f, s.files, s.pruned, names;
    }

    /** Verify everything first, then write the blocks and bind the root; a bad archive changes nothing. */
    method ImportCar(car: Archive, name: string) returns (r: Result<Cid, Refusal>)
      modifies this
      ensures r.Ok? <==> car.roots != [] && forall i :: 0 <= i < |car.blocks| ==> VerifyBlock(f, car.blocks[i])
      ensures r.Err? ==> unchanged(this)
      ensures r.Ok? ==> && r.value == car.roots[0]
                        && Abs() == Blocks(Written(old(files), car.blocks), old(pruned))
                        && names == old(names)[name := r.value]
      ensures old(Intact(f, Abs())) ==> Intact(f, Abs())
    {
      var read := ReadVerified(f, car);
      if read.Err? {
        return Err(read.error);
      }
      if read.value.roots == [] {
        return Err(NoRoot);
      }
      var i := 0;
      while i < |car.blocks|
        invariant 0 <= i <= |car.blocks| && pruned == old(pruned) && names == old(names)
        invariant files == Written(old(files), car.blocks[..i])
        invariant old(Intact(f, Abs())) ==> Intact(f, Abs())
      {
        files := files[car.blocks[i].cid := car.blocks[i].bytes];
        assert car.blocks[..i + 1][..i] == car.blocks[..i];
        i := i + 1;
      }
      assert car.blocks[..i] == car.blocks;
      names := names[name := read.value.roots[0]];
      r := Ok(read.value.roots[0]);
    }

    /** Store one block under its CID after verifying it; a block already there must be the same. */
    method StoreVerifiedRawBlock(cid: Cid, bytes: Bytes) returns (r: Result<(), Refusal>)
      modifies this
      ensures r.Ok? <==> VerifyBlock(f, Block(cid, bytes)) && (cid in old(files) ==> old(files)[cid] == bytes)
      ensures r.Ok? ==> files == old(files)[cid := bytes] && pruned == old(pruned) && names == old(names)
      ensures r.Err? ==> unchanged(this)
      ensures old(Intact(f, Abs())) ==> Intact(f, Abs())
    {
      if !VerifyBlock(f, Block(cid, bytes)) {
        return Err(Mismatch(0));
      }
      if cid in files {
        if files[cid] != bytes {
          return Err(Conflict(cid));
        }
        assert files == files[cid := bytes];
        return Ok(());
      }
      files := files[cid := bytes];
      r := Ok(());
    }
  }

  // ---- round trip ---------------------------------------------------------------------------------

  lemma {:induction false} WrittenHolds(files: map<Cid, Bytes>, blocks: seq<Block>, i: nat)
    requires NoDuplicates(Cids(blocks)) && i < |blocks|
    ensures blocks[i].cid in Written(files, blocks) && Written(files, blocks)[blocks[i].cid] == blocks[i].bytes
  {
    var n := |blocks| - 1;
    if i < n {
      assert Cids(blocks)[i] != Cids(blocks)[n];
      assert Cids(blocks[..n]) == Cids(blocks)[..n];
      WrittenHolds(files, blocks[..n], i);
    }
  }

  lemma SameBytesSameRecord(f: Formats, s: Blocks, t: Blocks, c: Cid)
    requires Good(f, s, c) && c in t.files && t.files[c] == s.files[c]
    ensures Get(f, t, c) == Get(f, s, c)
  {
  }

  /** An exported archive always verifies. */
  lemma ExportedBlocksVerify(f: Formats, s: Blocks, root: Cid, car: Archive, i: nat)
    requires !Broken(f, s, root) && Exports(f, s, root, car) && i < |car.blocks|
    ensures VerifyBlock(f, car.blocks[i])
  {
    assert Cids(car.blocks)[i] in Cids(car.blocks);
    assert Good(f, s, car.blocks[i].cid);
  }

  /** The round trip.  Importing what one store exports into any other, whatever that one holds or has pruned,
      leaves there the same reach with the same bytes, and nothing in it broken - so exporting again succeeds. */
  lemma RoundTrip(f: Formats, s: Blocks, root: Cid, car: Archive, t0: Blocks, t: Blocks)
    requires !Broken(f, s, root) && Exports(f, s, root, car)
    requires t == Blocks(Written(t0.files, car.blocks), t0.pruned)
    ensures forall i :: 0 <= i < |car.blocks| ==> VerifyBlock(f, car.blocks[i])
    ensures forall c :: Reachable(f, t, root, c) <==> Reachable(f, s, root, c)
    ensures forall c :: Reachable(f, s, root, c) ==> c in t.files && t.files[c] == s.files[c] && Good(f, t, c)
    ensures !Broken(f, t, root)
  {
    forall i | 0 <= i < |car.blocks| ensures VerifyBlock(f, car.blocks[i]) {
      ExportedBlocksVerify(f, s, root, car, i);
    }
    forall c | Reachable(f, s, root, c)
      ensures c in t.files && t.files[c] == s.files[c] && Get(f, t, c) == Get(f, s, c)
    {
      assert c in Cids(car.blocks);
      var i :| 0 <= i < |car.blocks| && Cids(car.blocks)[i] == c;
      WrittenHolds(t0.files, car.blocks, i);
      SameBytesSameRecord(f, s, t, c);
    }
    SameReach(f, s, t, root);
  }
}
