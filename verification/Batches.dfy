/** The batching of uploads to Cloudflare (crates/core/src/deploy.rs): requests are filled in order up to a limit. */
module Batches {
  import opened Basics

  const LIMIT: nat := 40000000

  datatype Upload = Upload(key: string, size: nat)

  function Total(items: seq<Upload>): nat {
    if items == [] then 0 else Total(items[..|items| - 1]) + items[|items| - 1].size
  }

  /** All items in order, in batches that hold something, stay within the limit unless one item alone exceeds it, and
      end only where the next item would not have fitted. */
  predicate Packs(batches: seq<seq<Upload>>, items: seq<Upload>) {
    && Flat(batches) == items
    && (forall k :: 0 <= k < |batches| ==> batches[k] != [] && (|batches[k]| == 1 || Total(batches[k]) <= 40000000))
    && forall k :: 0 <= k < |batches| - 1 ==> Overflows(batches[k], batches[k + 1])
  }

  predicate Overflows(batch: seq<Upload>, next: seq<Upload>) {
    next != [] && Total(batch) + next[0].size > 40000000
  }

  /** Some batches are sent and one is being filled, with what has been seen so far. */
  predicate Filling(sent: seq<seq<Upload>>, batch: seq<Upload>, seen: seq<Upload>) {
    && Packs(sent, Flat(sent)) && Flat(sent) + batch == seen
    && (batch == [] ==> sent == []) && (|batch| <= 1 || Total(batch) <= LIMIT)
    && (sent == [] || Overflows(sent[|sent| - 1], batch))
  }

  lemma Send(sent: seq<seq<Upload>>, batch: seq<Upload>, seen: seq<Upload>)
    requires Filling(sent, batch, seen) && batch != []
    ensures Packs(sent + [batch], seen)
  {
    FlatSnoc(sent, batch);
    var more := sent + [batch];
    forall k | 0 <= k < |more| - 1 ensures Overflows(more[k], more[k + 1]) {
      assert k < |sent| - 1 ==> Overflows(sent[k], sent[k + 1]);
    }
  }

  lemma NothingLeft(sent: seq<seq<Upload>>, seen: seq<Upload>)
    requires Filling(sent, [], seen)
    ensures Packs(sent, seen)
  {
  }

  lemma TotalSnoc(batch: seq<Upload>, item: Upload)
    ensures Total(batch + [item]) == Total(batch) + item.size
  {
    assert (batch + [item])[..|batch|] == batch;
  }

  lemma Fill(sent: seq<seq<Upload>>, batch: seq<Upload>, seen: seq<Upload>, item: Upload)
    requires Filling(sent, batch, seen) && (batch == [] || Total(batch) + item.size <= LIMIT)
    ensures Filling(sent, batch + [item], seen + [item])
  {
    TotalSnoc(batch, item);
    Regroup(Flat(sent), batch, [item]);
  }

  lemma SendAndFill(sent: seq<seq<Upload>>, batch: seq<Upload>, seen: seq<Upload>, item: Upload)
    requires Filling(sent, batch, seen) && batch != [] && Total(batch) + item.size > LIMIT
    ensures Filling(sent + [batch], [item], seen + [item])
  {
    Send(sent, batch, seen);
  }

  /** The first half of the loop body: the batch is sent if the item does not fit. */
  method MakeRoom(sent: seq<seq<Upload>>, batch: seq<Upload>, bytes: nat, item: Upload, ghost seen: seq<Upload>)
    returns (nowSent: seq<seq<Upload>>, nowBatch: seq<Upload>, nowBytes: nat)
    requires Filling(sent, batch, seen) && bytes == Total(batch)
    ensures Filling(nowSent, nowBatch + [item], seen + [item]) && nowBytes == Total(nowBatch)
  {
    if bytes + item.size > LIMIT && batch != [] {
      SendAndFill(sent, batch, seen, item);
      assert [] + [item] == [item];
      return sent + [batch], [], 0;
    }
    Fill(sent, batch, seen, item);
    return sent, batch, bytes;
  }

  method SendInBatches(items: seq<Upload>) returns (sent: seq<seq<Upload>>)
    ensures Packs(sent, items)
  {
    sent := [];
    var batch: seq<Upload> := [];
    var bytes := 0;
    for i := 0 to |items|
      invariant Filling(sent, batch, items[..i]) && bytes == Total(batch)
    {
      assert items[..i + 1] == items[..i] + [items[i]];
      sent, batch, bytes := MakeRoom(sent, batch, bytes, items[i], items[..i]);
      TotalSnoc(batch, items[i]);
      bytes := bytes + items[i].size;
      batch := batch + [items[i]];
    }
    assert items[..|items|] == items;
    if batch != [] {
      Send(sent, batch, items);
      sent := sent + [batch];
    } else {
      NothingLeft(sent, items);
    }
  }

  lemma {:induction false} FlatFromTheFront(batches: seq<seq<Upload>>)
    requires batches != []
    ensures Flat(batches) == batches[0] + Flat(batches[1..])
  {
    if |batches| == 1 {
      assert batches[..0] == [] && batches[1..] == [];
    } else {
      var n := |batches| - 1;
      FlatFromTheFront(batches[..n]);
      assert batches[..n][1..] == batches[1..][..n - 1];
      Regroup(batches[0], Flat(batches[1..][..n - 1]), batches[n]);
    }
  }

  lemma {:induction false} TotalGrows(items: seq<Upload>, n: nat)
    requires n <= |items|
    ensures Total(items[..n]) <= Total(items)
    ensures n < |items| ==> Total(items[..n]) + items[n].size <= Total(items)
  {
    if n < |items| {
      var before := items[..|items| - 1];
      assert n < |items| - 1 ==> before[..n] == items[..n];
      if n < |items| - 1 {
        TotalGrows(before, n);
      }
    } else {
      assert items[..n] == items;
    }
  }

  /** A first batch cannot be shorter than another packing's: the item after it would have fitted. */
  lemma FirstIsNotShorter(a: seq<seq<Upload>>, b: seq<seq<Upload>>, items: seq<Upload>)
    requires Packs(a, items) && Packs(b, items) && a != [] && b != []
    ensures |a[0]| >= |b[0]|
  {
    FlatFromTheFront(a);
    FlatFromTheFront(b);
    if |a[0]| < |b[0]| {
      var n := |a[0]|;
      assert n + |Flat(a[1..])| == |items| >= |b[0]|;
      FlatFromTheFront(a[1..]);
      assert Overflows(a[0], a[1]);
      assert items[n] == a[1][0] && b[0][n] == items[n];
      assert b[0][..n] == items[..n] == a[0];
      TotalGrows(b[0], n);
    }
  }

  /** There is only one way to pack, so these conditions say exactly which requests are made. */
  lemma {:induction false} PackingIsUnique(a: seq<seq<Upload>>, b: seq<seq<Upload>>, items: seq<Upload>)
    requires Packs(a, items) && Packs(b, items)
    ensures a == b
    decreases |a|
  {
    if a != [] && b != [] {
      FirstIsNotShorter(a, b, items);
      FirstIsNotShorter(b, a, items);
      FlatFromTheFront(a);
      FlatFromTheFront(b);
      SameSums(a[0], b[0], Flat(a[1..]), Flat(b[1..]));
      RestPacks(a);
      RestPacks(b);
      PackingIsUnique(a[1..], b[1..], Flat(a[1..]));
      assert a == [a[0]] + a[1..] && b == [b[0]] + b[1..];
    } else if a != [] {
      FlatFromTheFront(a);
    } else if b != [] {
      FlatFromTheFront(b);
    }
  }

  lemma RestPacks(a: seq<seq<Upload>>)
    requires a != [] && Packs(a, Flat(a))
    ensures Packs(a[1..], Flat(a[1..]))
  {
  }
}
