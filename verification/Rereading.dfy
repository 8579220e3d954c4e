/** The pairing of tool results with their arguments when a transcript is read again after it has grown: results that
    are known are skipped, but the calls they answer are announced anew. */
module Rereading {
  import opened Basics
  import opened Events
  import opened Store
  import opened Ingest
  import opened Pairing
  import opened Filing
  import Replay

  function InputAt(s: Tier, it: Item): Option<string> {
    match NodeAt(s, it)
    case Some(node) => if node.ToolResult? then Some(node.input) else None
    case None => None
  }

  /** What a result is stored with when the transcript is read while it grows. */
  lemma ReadingsGive(s: Tier, t: seq<Item>, cuts: seq<nat>, streams: seq<seq<Item>>, k: nat, i: nat)
    requires DistinctKeys(t) && KnownUpTo(s, t, 0) && AreReadings(streams, t, cuts) && Replay.CleanPasses(s, streams)
    requires k < |cuts| && ReadBefore(cuts, k) <= i < cuts[k] && t[i].env.event.ToolCallFinished?
    ensures InputAt(Replay.Passes(s, streams), t[i]) == Some(InputIn(Envs(t), i, ReadBefore(cuts, k)))
  {
    ReadingsFile(s, t, cuts, streams, k, i);
  }

  lemma OneReadingGives(s: Tier, t: seq<Item>, i: nat)
    requires DistinctKeys(t) && KnownUpTo(s, t, 0) && i < |t| && Replay.Clean(s, t) && t[i].env.event.ToolCallFinished?
    ensures InputAt(IngestAll(s, t).store, t[i]) == Some(InputIn(Envs(t), i, 0))
  {
    InOneGo(s, t, i);
  }

  /** When a transcript that is read while it grows pairs like one that is read in one go: exactly where the oldest
      unused arguments are the same whether or not the results read before count. */
  lemma ReadingsPairExactlyWhen(s: Tier, t: seq<Item>, cuts: seq<nat>, streams: seq<seq<Item>>, k: nat, i: nat)
    requires DistinctKeys(t) && KnownUpTo(s, t, 0) && AreReadings(streams, t, cuts) && Replay.CleanPasses(s, streams)
    requires k < |cuts| && ReadBefore(cuts, k) <= i < cuts[k] && t[i].env.event.ToolCallFinished? && Replay.Clean(s, t)
    ensures var before, sid, tool := Envs(t)[..i], t[i].Session(), t[i].env.event.tool;
            InputAt(Replay.Passes(s, streams), t[i]) == InputAt(IngestAll(s, t).store, t[i]) <==>
            Oldest(Backlog([], before, sid, tool, ReadBefore(cuts, k))) == Oldest(Backlog([], before, sid, tool, 0))
  {
    ReadingsGive(s, t, cuts, streams, k, i);
    OneReadingGives(s, t, i);
  }

  // ---- a transcript that pairs wrongly -------------------------------------------------------------------

  /** Nothing is refused and every file can be read. */
  predicate Smooth(items: seq<Item>) {
    forall i :: 0 <= i < |items| ==> items[i].faults == {} && (items[i].env.event.IsFile() ==> items[i].disk.Some?)
  }

  lemma SmoothWritesGoThrough(st: SessionState, it: Item, node: Node, title: string)
    requires it.faults == {}
    ensures WriteNode(st, it, node).failure.None? && WriteCheckpoint(st, it, title).failure.None?
    ensures it.env.event.IsFile() && it.disk.Some? ==> WriteFile(st, it).failure.None?
  {
    assert BoundUpTo(ScopedNames(it.env, title), it.faults, 0) == |ScopedNames(it.env, title)|;
  }

  lemma SmoothEventsGoThrough(known: bool, st: SessionState, it: Item)
    requires it.faults == {} && (it.env.event.IsFile() ==> it.disk.Some?)
    ensures Handle(known, st, it).failure.None?
  {
    var st1 := See(st, it);
    match it.env.event
    case SessionStarted(_) =>
    case ToolCallStarted(_, _) =>
    case ToolCallFinished(tool, _, _) =>
      SmoothWritesGoThrough(PopArgs(st1, tool), it, ContentNode(it, OldestArgs(st1, tool)), "");
    case CheckpointRequested(title) => SmoothWritesGoThrough(st1, it, Memory("", ""), OrElse(title, "checkpoint"));
    case SessionEnded => SmoothWritesGoThrough(st1, it, Memory("", ""), "session-ended");
    case FileRead(_) => SmoothWritesGoThrough(st1, it, Memory("", ""), "");
    case FileWritten(_) => SmoothWritesGoThrough(st1, it, Memory("", ""), "");
    case _ => SmoothWritesGoThrough(st1, it, ContentNode(it, ""), "");
  }

  lemma {:induction false} SmoothRunsAreClean(s: Tier, items: seq<Item>)
    requires Smooth(items)
    ensures Replay.Clean(s, items)
  {
    if items != [] {
      var before, it := items[..|items| - 1], items[|items| - 1];
      SmoothRunsAreClean(s, before);
      var w := Run(Start(s), before);
      SmoothEventsGoThrough(Known(w.store, it), StateOf(w, it.Session()), it);
    }
  }

  /** Two calls of one tool, one after the other, under four different keys. */
  ghost predicate TwoCalls(t: seq<Item>, sid: SessionKey, tool: string, first: string, second: string) {
    && |t| == 4 && DistinctKeys(t)
    && Announces(t[0].env, sid, tool) && t[0].env.event.argsJson == Some(first) && Finishes(t[1].env, sid, tool)
    && Announces(t[2].env, sid, tool) && t[2].env.event.argsJson == Some(second) && Finishes(t[3].env, sid, tool)
  }

  lemma TwoCallsGive(t: seq<Item>, sid: SessionKey, tool: string, first: string, second: string)
    requires TwoCalls(t, sid, tool, first, second)
    ensures InputIn(Envs(t), 3, 0) == second && InputIn(Envs(t), 3, 2) == first
  {
    var envs := Envs(t);
    assert envs[..3][..2] == envs[..2] && envs[..2][..1] == envs[..1] && envs[..1][..0] == [];
    assert Backlog([], envs[..1], sid, tool, 0) == Backlog([], envs[..1], sid, tool, 2) == [first];
    assert Backlog([], envs[..2], sid, tool, 0) == [] && Backlog([], envs[..2], sid, tool, 2) == [first];
    assert Backlog([], envs[..3], sid, tool, 0) == [second] && Backlog([], envs[..3], sid, tool, 2) == [first, second];
  }

  /** The simplest case.  Read in one go, the second result carries the second call's arguments; read when its first
      half had been read before, it carries the first call's.  Nothing is refused either way. */
  lemma RereadingMispairs(s: Tier, t: seq<Item>, sid: SessionKey, tool: string, first: string, second: string)
    requires TwoCalls(t, sid, tool, first, second) && Smooth(t) && KnownUpTo(s, t, 0)
    ensures Replay.Clean(s, t) && Replay.CleanPasses(s, [t[..2], t])
    ensures InputAt(IngestAll(s, t).store, t[3]) == Some(second)
    ensures InputAt(Replay.Passes(s, [t[..2], t]), t[3]) == Some(first)
  {
    var streams := [t[..2], t];
    TwoReadings(t, 2);
    SmoothRunsAreClean(s, t);
    SmoothPassesAreClean(s, streams);
    TwoCallsGive(t, sid, tool, first, second);
    ReadingsGive(s, t, [2, 4], streams, 1, 3);
    OneReadingGives(s, t, 3);
  }

  lemma TwoReadings(t: seq<Item>, n: nat)
    requires n <= |t|
    ensures AreReadings([t[..n], t], t, [n, |t|])
  {
    PrefixOfPrefix(t, n, n);
  }

  lemma SmoothPassesAreClean(s: Tier, streams: seq<seq<Item>>)
    requires forall k :: 0 <= k < |streams| ==> Smooth(streams[k])
    ensures Replay.CleanPasses(s, streams)
  {
    forall k | 0 <= k < |streams| ensures Replay.Clean(Replay.Passes(s, streams[..k]), streams[k]) {
      SmoothRunsAreClean(Replay.Passes(s, streams[..k]), streams[k]);
    }
  }
}
