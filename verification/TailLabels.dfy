/** What reading a transcript in chunks does to its events: nothing, but for the labels of some tool results. */
module TailLabels {
  import opened Basics
  import opened Events
  import opened ClaudeCode
  import Tail

  function UnlabelledEvent(e: Event): Event {
    match e
    case ToolCallFinished(_, ok, result) => ToolCallFinished("", ok, result)
    case _ => e
  }

  /** An envelope without the tool label of a result. */
  function Unlabelled(env: Envelope): Envelope {
    env.(event := UnlabelledEvent(env.event))
  }

  predicate SameButLabels(a: seq<Envelope>, b: seq<Envelope>) {
    |a| == |b| && forall i :: 0 <= i < |a| ==> Unlabelled(a[i]) == Unlabelled(b[i])
  }

  // ---- two readers that know different calls -----------------------------------------------------------

  /** The first reader knows no call the second does not. */
  ghost predicate KnowsLess(m: Names, n: Names) {
    forall id :: id in m ==> id in n && n[id] == m[id]
  }

  predicate Calls(b: Block, id: string) {
    b.ToolUse? && b.id == Some(id)
  }

  /** The result at `i` is for a call that only the second reader knows, and by another name than its id. */
  predicate ForgetsAt(m: Names, n: Names, blocks: seq<Block>, i: nat)
    requires i < |blocks|
  {
    && blocks[i].ToolResult? && blocks[i].useId.Some?
    && var id := blocks[i].useId.value;
       id in n && id !in m && n[id] != id && forall j :: 0 <= j < i ==> !Calls(blocks[j], id)
  }

  predicate Forgets(m: Names, n: Names, blocks: seq<Block>) {
    exists i :: 0 <= i < |blocks| && ForgetsAt(m, n, blocks, i)
  }

  lemma {:induction false} KnowledgeGrows(m: Names, n: Names, blocks: seq<Block>, id: string)
    requires KnowsLess(m, n)
    ensures var m', n' := NamesAfterBlocks(m, blocks), NamesAfterBlocks(n, blocks);
            && KnowsLess(m', n')
            && (id in n' && id !in m' <==>
                  id in n && id !in m && forall j :: 0 <= j < |blocks| ==> !Calls(blocks[j], id))
            && (id in n' && id !in m' ==> n'[id] == n[id])
    decreases |blocks|
  {
    if blocks != [] {
      KnowledgeGrows(NamesAfterBlock(m, blocks[0]), NamesAfterBlock(n, blocks[0]), blocks[1..], id);
      assert forall j :: 0 < j < |blocks| ==> blocks[j] == blocks[1..][j - 1];
    }
  }

  lemma ForgetsLater(m: Names, n: Names, head: seq<Block>, blocks: seq<Block>)
    requires KnowsLess(m, n)
    ensures Forgets(m, n, head + blocks) <==>
            Forgets(m, n, head) || Forgets(NamesAfterBlocks(m, head), NamesAfterBlocks(n, head), blocks)
  {
    var m', n', all := NamesAfterBlocks(m, head), NamesAfterBlocks(n, head), head + blocks;
    forall i | 0 <= i < |head| ensures ForgetsAt(m, n, all, i) <==> ForgetsAt(m, n, head, i) {
      assert forall j :: 0 <= j <= i ==> all[j] == head[j];
    }
    forall i | 0 <= i < |blocks| ensures ForgetsAt(m, n, all, |head| + i) <==> ForgetsAt(m', n', blocks, i) {
      ForgetsShift(m, n, head, blocks, i);
    }
    if Forgets(m, n, all) {
      var i :| 0 <= i < |all| && ForgetsAt(m, n, all, i);
      assert i >= |head| ==> ForgetsAt(m', n', blocks, i - |head|);
    }
  }

  lemma ForgetsShift(m: Names, n: Names, head: seq<Block>, blocks: seq<Block>, i: nat)
    requires KnowsLess(m, n) && i < |blocks|
    ensures ForgetsAt(m, n, head + blocks, |head| + i) <==>
            ForgetsAt(NamesAfterBlocks(m, head), NamesAfterBlocks(n, head), blocks, i)
  {
    var all := head + blocks;
    if blocks[i].ToolResult? && blocks[i].useId.Some? {
      var id := blocks[i].useId.value;
      KnowledgeGrows(m, n, head, id);
      assert forall j :: 0 <= j < |head| ==> all[j] == head[j];
      assert forall j :: 0 <= j <= i ==> all[|head| + j] == blocks[j];
      assert (forall j :: 0 <= j < |head| + i ==> !Calls(all[j], id)) <==>
             (forall j :: 0 <= j < |head| ==> !Calls(head[j], id))
                 && (forall j :: 0 <= j < i ==> !Calls(blocks[j], id)) by {
        assert forall j :: |head| <= j < |head| + i ==> all[j] == blocks[j - |head|];
      }
    }
  }

  predicate SameButLabelled(a: seq<Event>, b: seq<Event>) {
    |a| == |b| && forall i :: 0 <= i < |a| ==> UnlabelledEvent(a[i]) == UnlabelledEvent(b[i])
  }

  lemma NamesAfterOne(names: Names, block: Block)
    ensures NamesAfterBlocks(names, [block]) == NamesAfterBlock(names, block)
  {
    assert NamesAfterBlocks(NamesAfterBlock(names, block), []) == NamesAfterBlock(names, block);
  }

  /** They say the same of any blocks, up to labels, and altogether the same unless the first has forgotten. */
  lemma {:induction false} BlocksCompared(m: Names, n: Names, blocks: seq<Block>)
    requires KnowsLess(m, n)
    ensures SameButLabelled(BlocksSaid(m, blocks), BlocksSaid(n, blocks))
    ensures BlocksSaid(m, blocks) == BlocksSaid(n, blocks) <==> !Forgets(m, n, blocks)
    decreases |blocks|
  {
    if blocks != [] {
      var m', n' := NamesAfterBlock(m, blocks[0]), NamesAfterBlock(n, blocks[0]);
      var a, b := BlockSaid(m, blocks[0]), BlockSaid(n, blocks[0]);
      NamesAfterOne(m, blocks[0]);
      NamesAfterOne(n, blocks[0]);
      assert [blocks[0]] + blocks[1..] == blocks;
      ForgetsLater(m, n, [blocks[0]], blocks[1..]);
      assert Forgets(m, n, [blocks[0]]) <==> ForgetsAt(m, n, [blocks[0]], 0);
      BlocksCompared(m', n', blocks[1..]);
      SameSums(a, b, BlocksSaid(m', blocks[1..]), BlocksSaid(n', blocks[1..]));
    }
  }

  // ---- lines -------------------------------------------------------------------------------------------

  function AllBlocks(lines: seq<Line>): seq<Block> {
    if lines == [] then [] else AllBlocks(lines[..|lines| - 1]) + BlocksOf(lines[|lines| - 1])
  }

  lemma {:induction false} NamesAfterTwo(names: Names, head: seq<Block>, blocks: seq<Block>)
    ensures NamesAfterBlocks(names, head + blocks) == NamesAfterBlocks(NamesAfterBlocks(names, head), blocks)
    decreases |head|
  {
    if head == [] {
      assert head + blocks == blocks;
    } else {
      assert (head + blocks)[1..] == head[1..] + blocks;
      NamesAfterTwo(NamesAfterBlock(names, head[0]), head[1..], blocks);
    }
  }

  /** What the latest call with this id named. */
  function LatestName(blocks: seq<Block>, id: string): Option<string> {
    if blocks == [] then None
    else if Calls(blocks[|blocks| - 1], id) then Some(OrElse(blocks[|blocks| - 1].name, "tool"))
    else LatestName(blocks[..|blocks| - 1], id)
  }

  /** A result is labelled by the latest call before it with its id; without one, by the id itself. */
  lemma {:induction false} LabelsNameTheLatestCall(blocks: seq<Block>, id: string)
    ensures Lookup(NamesAfterBlocks(map[], blocks), id) == LatestName(blocks, id)
    ensures LabelOf(NamesAfterBlocks(map[], blocks), Some(id)) == OrElse(LatestName(blocks, id), id)
  {
    if blocks != [] {
      var before, last := blocks[..|blocks| - 1], blocks[|blocks| - 1];
      LabelsNameTheLatestCall(before, id);
      SplitLast(blocks);
      NamesAfterTwo(map[], before, [last]);
      assert NamesAfterBlocks(NamesAfterBlocks(map[], before), [last])
             == NamesAfterBlock(NamesAfterBlocks(map[], before), last);
    }
  }

  lemma {:induction false} NamesOfBlocks(names: Names, lines: seq<Line>)
    ensures NamesAfter(names, lines) == NamesAfterBlocks(names, AllBlocks(lines))
  {
    if lines != [] {
      var before, last := lines[..|lines| - 1], lines[|lines| - 1];
      NamesOfBlocks(names, before);
      NamesAfterTwo(names, AllBlocks(before), BlocksOf(last));
    }
  }

  lemma StampedCompared(line: Line, a: seq<Event>, b: seq<Event>)
    requires SameButLabelled(a, b)
    ensures SameButLabels(Stamped(line, a), Stamped(line, b))
    ensures Stamped(line, a) == Stamped(line, b) <==> a == b
  {
    Tail.StampedEvents(line, a);
    Tail.StampedEvents(line, b);
    forall i | 0 <= i < |a|
      ensures Unlabelled(Stamped(line, a)[i]) == Unlabelled(Stamped(line, b)[i])
      ensures Stamped(line, a)[i].event == a[i] && Stamped(line, b)[i].event == b[i]
    {
      assert Unlabelled(EventAt(line, i, a[i])) == Unlabelled(EventAt(line, i, b[i]));
    }
    if Stamped(line, a) == Stamped(line, b) {
      assert forall i :: 0 <= i < |a| ==> a[i] == b[i];
    }
  }

  lemma LineCompared(m: Names, n: Names, line: Line)
    requires KnowsLess(m, n)
    ensures SameButLabels(LineOut(m, line), LineOut(n, line))
    ensures LineOut(m, line) == LineOut(n, line) <==> !Forgets(m, n, BlocksOf(line))
  {
    var a, b := BlocksSaid(m, BlocksOf(line)), BlocksSaid(n, BlocksOf(line));
    BlocksCompared(m, n, BlocksOf(line));
    StampedCompared(line, Spoken(line) + a, Spoken(line) + b);
    SameSums(Spoken(line), Spoken(line), a, b);
  }

  lemma SameButLabelsTwice(a: seq<Envelope>, b: seq<Envelope>, c: seq<Envelope>, d: seq<Envelope>)
    requires SameButLabels(a, b) && SameButLabels(c, d)
    ensures SameButLabels(a + c, b + d) && (a + c == b + d <==> a == b && c == d)
  {
    SameSums(a, b, c, d);
  }

  lemma {:induction false} LinesCompared(m: Names, n: Names, lines: seq<Line>)
    requires KnowsLess(m, n)
    ensures SameButLabels(EventsOf(m, lines), EventsOf(n, lines))
    ensures EventsOf(m, lines) == EventsOf(n, lines) <==> !Forgets(m, n, AllBlocks(lines))
  {
    if lines != [] {
      var before, last := lines[..|lines| - 1], lines[|lines| - 1];
      LinesCompared(m, n, before);
      var m', n' := NamesAfter(m, before), NamesAfter(n, before);
      NamesOfBlocks(m, before);
      NamesOfBlocks(n, before);
      KnowledgeGrows(m, n, AllBlocks(before), "");
      LineCompared(m', n', last);
      ForgetsLater(m, n, AllBlocks(before), BlocksOf(last));
      SameButLabelsTwice(EventsOf(m, before), EventsOf(n, before), LineOut(m', last), LineOut(n', last));
    }
  }

  // ---- chunks ------------------------------------------------------------------------------------------

  lemma {:induction false} NamesAfterMore(names: Names, head: seq<Line>, lines: seq<Line>)
    ensures NamesAfter(names, head + lines) == NamesAfter(NamesAfter(names, head), lines)
  {
    if lines == [] {
      assert head + lines == head;
    } else {
      NamesAfterMore(names, head, lines[..|lines| - 1]);
      assert (head + lines)[..|head + lines| - 1] == head + lines[..|lines| - 1];
    }
  }

  lemma EventsAfterOne(names: Names, head: seq<Line>, before: seq<Line>, last: Line)
    requires EventsOf(names, head + before) == EventsOf(names, head) + EventsOf(NamesAfter(names, head), before)
    ensures EventsOf(names, head + before + [last])
            == EventsOf(names, head) + EventsOf(NamesAfter(names, head), before + [last])
  {
    var names' := NamesAfter(names, head);
    NamesAfterMore(names, head, before);
    EventsOn(names, head + before, last);
    EventsOn(names', before, last);
    Regroup(EventsOf(names, head), EventsOf(names', before), LineOut(NamesAfter(names', before), last));
  }

  lemma {:induction false} EventsAfter(names: Names, head: seq<Line>, lines: seq<Line>)
    ensures EventsOf(names, head + lines) == EventsOf(names, head) + EventsOf(NamesAfter(names, head), lines)
  {
    if lines == [] {
      assert head + lines == head;
    } else {
      var before, last := lines[..|lines| - 1], lines[|lines| - 1];
      EventsAfter(names, head, before);
      EventsAfterOne(names, head, before, last);
      SplitLast(lines);
      Regroup(head, before, [last]);
    }
  }

  /** The events of chunks that are read one by one, each without memory of the ones before. */
  function Pieces(chunks: seq<seq<Line>>): (pieces: seq<seq<Envelope>>)
    ensures |pieces| == |chunks|
  {
    if chunks == [] then [] else Pieces(chunks[..|chunks| - 1]) + [EventsOf(map[], chunks[|chunks| - 1])]
  }

  /** A chunk has the result of a call made in a chunk before it. */
  ghost predicate SplitsACall(chunks: seq<seq<Line>>, k: nat)
    requires k < |chunks|
  {
    Forgets(map[], NamesAfter(map[], Flat(chunks[..k])), AllBlocks(chunks[k]))
  }

  /** No chunk does. */
  ghost predicate KeepsCallsWhole(chunks: seq<seq<Line>>) {
    chunks == [] || (KeepsCallsWhole(chunks[..|chunks| - 1]) && !SplitsACall(chunks, |chunks| - 1))
  }

  lemma OneMoreChunk(read: seq<Envelope>, head: seq<Line>, chunk: seq<Line>)
    requires SameButLabels(read, EventsOf(map[], head))
    ensures SameButLabels(read + EventsOf(map[], chunk), EventsOf(map[], head + chunk))
    ensures read + EventsOf(map[], chunk) == EventsOf(map[], head + chunk) <==>
            read == EventsOf(map[], head) && !Forgets(map[], NamesAfter(map[], head), AllBlocks(chunk))
  {
    var names := NamesAfter(map[], head);
    EventsAfter(map[], head, chunk);
    LinesCompared(map[], names, chunk);
    SameButLabelsTwice(read, EventsOf(map[], head), EventsOf(map[], chunk), EventsOf(names, chunk));
  }

  /** Chunk by chunk, a conversation becomes the same events as when read in one go: the same number, in the same
      order, with the same ids, times, texts, arguments, results and reasoning.  Only the label of a tool result may
      differ, and does exactly when its call is in an earlier chunk, and not again before it in its own, and names a
      tool other than its id. */
  lemma {:induction false} ChunksMatchTheWhole(chunks: seq<seq<Line>>)
    ensures SameButLabels(Flat(Pieces(chunks)), EventsOf(map[], Flat(chunks)))
    ensures Flat(Pieces(chunks)) == EventsOf(map[], Flat(chunks)) <==>
            KeepsCallsWhole(chunks)
  {
    if chunks != [] {
      var before, last := chunks[..|chunks| - 1], chunks[|chunks| - 1];
      ChunksMatchTheWhole(before);
      OneMoreChunk(Flat(Pieces(before)), Flat(before), last);
      FlatSnoc(Pieces(before), EventsOf(map[], last));
    }
  }
}
