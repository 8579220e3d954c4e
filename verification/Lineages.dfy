/** How far back the chain of checkpoints reaches.  Every run starts with empty sessions, so its first checkpoint of
    each session has no parent: from what a latest name resolves to, the chain never leaves the run that wrote it. */
module Lineages {
  import opened Basics
  import opened Events
  import opened Store
  import opened Ingest
  import opened History
  import Replay

  /** A checkpoint and those before it, newest first. */
  function Lineage(c: Cid): seq<Cid>
    decreases c
  {
    if c.node.Checkpoint? && c.node.parent.Some? then [c] + Lineage(c.node.parent.value) else [c]
  }

  predicate AllIn(cids: seq<Cid>, records: seq<Cid>) {
    forall i :: 0 <= i < |cids| ==> cids[i] in records
  }

  /** What an event leaves as its session's last checkpoint. */
  predicate Succeeds(before: Option<Cid>, records: seq<Cid>, after: Option<Cid>) {
    || after.None? || after == before
    || (after.value in records && after.value.node.Checkpoint? && after.value.node.parent == before)
  }

  lemma CheckpointSucceeds(st: SessionState, it: Item, title: string)
    ensures var o := WriteCheckpoint(st, it, title);
            && Succeeds(st.lastCheckpoint, o.records, o.state.lastCheckpoint)
            && forall c :: c in o.records ==> c.node.Checkpoint? && c.node.parent == st.lastCheckpoint
  {
  }

  lemma NodeKeepsLast(st: SessionState, it: Item, node: Node)
    ensures WriteNode(st, it, node).state.lastCheckpoint == st.lastCheckpoint
    ensures WriteNode(st, it, node).checkpoints == 0
    ensures it.env.event.IsFile() ==>
              WriteFile(st, it).state.lastCheckpoint == st.lastCheckpoint && WriteFile(st, it).checkpoints == 0
  {
  }

  lemma ProcessSucceeds(st: SessionState, it: Item)
    ensures var o := Process(st, it);
            && Succeeds(st.lastCheckpoint, o.records, o.state.lastCheckpoint)
            && (o.checkpoints > 0 ==>
                  forall c :: c in o.records ==> c.node.Checkpoint? && c.node.parent == st.lastCheckpoint)
  {
    match it.env.event
    case SessionStarted(_) =>
    case ToolCallStarted(_, _) =>
    case ToolCallFinished(tool, _, _) => NodeKeepsLast(PopArgs(st, tool), it, ContentNode(it, OldestArgs(st, tool)));
    case FileRead(_) => NodeKeepsLast(st, it, Memory("", ""));
    case FileWritten(_) => NodeKeepsLast(st, it, Memory("", ""));
    case CheckpointRequested(title) => CheckpointSucceeds(st, it, OrElse(title, "checkpoint"));
    case SessionEnded => CheckpointSucceeds(st, it, "session-ended");
    case _ => NodeKeepsLast(st, it, ContentNode(it, ""));
  }

  lemma HandleSucceeds(known: bool, st: SessionState, it: Item)
    ensures var o := Handle(known, st, it);
            && Succeeds(st.lastCheckpoint, o.records, o.state.lastCheckpoint)
            && (o.checkpoints > 0 ==>
                  forall c :: c in o.records ==> c.node.Checkpoint? && c.node.parent == st.lastCheckpoint)
  {
    ProcessSucceeds(See(st, it), it);
  }

  lemma LineageGrows(c: Cid, records: seq<Cid>, more: seq<Cid>)
    requires c.node.Checkpoint? && c in more
    requires c.node.parent.Some? ==> AllIn(Lineage(c.node.parent.value), records)
    ensures AllIn(Lineage(c), records + more)
  {
  }

  lemma StillIn(cids: seq<Cid>, records: seq<Cid>, more: seq<Cid>)
    requires AllIn(cids, records)
    ensures AllIn(cids, records + more)
  {
  }

  /** In every run, whatever is refused, the lineage of a session's last checkpoint is of the run's own records. */
  lemma {:induction false} LastIsOfTheRun(s: Tier, items: seq<Item>, sid: SessionKey)
    ensures var w := Run(Start(s), items); var last := StateOf(w, sid).lastCheckpoint;
            last.Some? ==> AllIn(Lineage(last.value), w.report.recordCids)
  {
    if items != [] {
      var before, it := items[..|items| - 1], items[|items| - 1];
      LastIsOfTheRun(s, before, sid);
      NextIsOfTheRun(Run(Start(s), before), it, sid);
    }
  }

  lemma NextIsOfTheRun(w: World, it: Item, sid: SessionKey)
    requires var last := StateOf(w, sid).lastCheckpoint; last.Some? ==> AllIn(Lineage(last.value), w.report.recordCids)
    ensures var after := Step(w, it); var last := StateOf(after, sid).lastCheckpoint;
            last.Some? ==> AllIn(Lineage(last.value), after.report.recordCids)
  {
    var st, o := StateOf(w, sid), Effect(w, it);
    HandleSucceeds(Known(w.store, it), StateOf(w, it.Session()), it);
    var last := StateOf(Step(w, it), sid).lastCheckpoint;
    if last.Some? {
      if last == st.lastCheckpoint {
        StillIn(Lineage(last.value), w.report.recordCids, o.records);
      } else {
        LineageGrows(last.value, w.report.recordCids, o.records);
      }
    }
  }

  /** So is that of every checkpoint a latest name follows. */
  lemma {:induction false} FollowedIsOfTheRun(s: Tier, items: seq<Item>, n: Name)
    ensures LastFollowed(s, items, n).Some? ==>
              AllIn(Lineage(LastFollowed(s, items, n).value), Run(Start(s), items).report.recordCids)
  {
    if items != [] {
      var before, it := items[..|items| - 1], items[|items| - 1];
      FollowedIsOfTheRun(s, before, n);
      NextFollowed(s, before, it, n);
      SplitLast(items);
    }
  }

  lemma NextFollowed(s: Tier, before: seq<Item>, it: Item, n: Name)
    requires LastFollowed(s, before, n).Some? ==>
               AllIn(Lineage(LastFollowed(s, before, n).value), Run(Start(s), before).report.recordCids)
    ensures LastFollowed(s, before + [it], n).Some? ==>
              AllIn(Lineage(LastFollowed(s, before + [it], n).value), Run(Start(s), before + [it]).report.recordCids)
  {
    var w := Run(Start(s), before);
    var o := Effect(w, it);
    assert (before + [it])[..|before|] == before;
    HandleSucceeds(Known(w.store, it), StateOf(w, it.Session()), it);
    LastIsOfTheRun(s, before, it.Session());
    if o.checkpoints > 0 && o.records != [] && Follows(n, it.env) {
      LineageGrows(o.records[|o.records| - 1], w.report.recordCids, o.records);
    } else if LastFollowed(s, before, n).Some? {
      StillIn(Lineage(LastFollowed(s, before, n).value), w.report.recordCids, o.records);
    }
  }

  // ---- over several runs -----------------------------------------------------------------------------------

  /** The last pass that wrote a checkpoint the name follows, or how many passes there are if none did. */
  ghost function LastWriter(s: Tier, streams: seq<seq<Item>>, n: Name): (k: nat)
    ensures k <= |streams|
  {
    if streams == [] then 0
    else
      var p := |streams| - 1;
      if LastFollowed(Replay.Passes(s, streams[..p]), streams[p], n).Some? then p
      else if LastWriter(s, streams[..p], n) < p then LastWriter(s, streams[..p], n)
      else |streams|
  }

  ghost function RecordsOf(s: Tier, streams: seq<seq<Item>>, k: nat): seq<Cid>
    requires k < |streams|
  {
    Run(Start(Replay.Passes(s, streams[..k])), streams[k]).report.recordCids
  }

  ghost predicate EndsWithItsRun(s: Tier, streams: seq<seq<Item>>, n: Name) {
    var k, names := LastWriter(s, streams, n), Replay.Passes(s, streams).names;
    if k == |streams| then Lookup(names, n) == Lookup(s.names, n)
    else Lookup(names, n).Some? && AllIn(Lineage(Lookup(names, n).value), RecordsOf(s, streams, k))
  }

  /** The chain does not reach past a run.  After any number of clean passes, what a latest name resolves to is as it
      was before them all, or is a checkpoint whose whole lineage, down to one without a parent, was written by the
      last pass that moved the name. */
  lemma {:induction false} ChainsEndWithTheirRun(s: Tier, streams: seq<seq<Item>>, n: Name)
    requires Replay.CleanPasses(s, streams) && MovedByCheckpoints(n)
    ensures EndsWithItsRun(s, streams, n)
  {
    if streams != [] {
      Replay.CleanPassesPrefix(s, streams);
      ChainsEndWithTheirRun(s, streams[..|streams| - 1], n);
      NextEnds(s, streams, n);
    }
  }

  lemma NextEnds(s: Tier, streams: seq<seq<Item>>, n: Name)
    requires streams != [] && MovedByCheckpoints(n) && EndsWithItsRun(s, streams[..|streams| - 1], n)
    requires Replay.Clean(Replay.Passes(s, streams[..|streams| - 1]), streams[|streams| - 1])
    ensures EndsWithItsRun(s, streams, n)
  {
    var p := |streams| - 1;
    var k := LastWriter(s, streams[..p], n);
    LastPassMoves(s, streams, n);
    if k < p {
      SameRecords(s, streams, p, k);
    }
  }

  lemma SameRecords(s: Tier, streams: seq<seq<Item>>, p: nat, k: nat)
    requires k < p <= |streams|
    ensures RecordsOf(s, streams[..p], k) == RecordsOf(s, streams, k)
  {
    PrefixOfPrefix(streams, p, k);
  }

  lemma LastPassMoves(s: Tier, streams: seq<seq<Item>>, n: Name)
    requires streams != [] && MovedByCheckpoints(n)
    requires Replay.Clean(Replay.Passes(s, streams[..|streams| - 1]), streams[|streams| - 1])
    ensures var p := |streams| - 1;
            var before, after := Replay.Passes(s, streams[..p]), Replay.Passes(s, streams);
            var last := LastFollowed(before, streams[p], n);
            && Lookup(after.names, n) == (if last.Some? then last else Lookup(before.names, n))
            && (last.Some? ==> AllIn(Lineage(last.value), RecordsOf(s, streams, p)))
  {
    var p := |streams| - 1;
    var before := Replay.Passes(s, streams[..p]);
    LatestNamesTheLastCheckpoint(before, streams[p], n);
    FollowedIsOfTheRun(before, streams[p], n);
    RollUpKeepsNames(Run(Start(before), streams[p]).store, n);
  }

  lemma RollUpKeepsNames(s: Tier, n: Name)
    ensures Lookup(RollUp(s).names, n) == Lookup(s.names, n)
  {
  }
}
