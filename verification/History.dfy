/** What a session's running state stands for: the events handled since its last start.  From it follow the
    checkpoint chain, the pairing of tool results with their arguments, and what `latest` resolves to. */
module History {
  import opened Basics
  import opened Events
  import opened Store
  import opened Ingest
  import Replay
  import Sessions

  /** A tool call that was announced, or a record that was written. */
  datatype Happening = Started(tool: string, args: string) | Wrote(cid: Cid)
  {
    predicate IsCheckpoint() { Wrote? && cid.node.Checkpoint? }
    predicate IsNode() { Wrote? && !cid.node.Checkpoint? }
    predicate IsResultOf(t: string) { Wrote? && cid.node.ToolResult? && cid.node.tool == t }
  }

  type Log = seq<Happening>

  // ---- the reference: what a log says ------------------------------------------------------------

  function LastNode(h: Log): Option<Cid> {
    if h == [] then None
    else if h[|h| - 1].IsNode() then Some(h[|h| - 1].cid)
    else LastNode(h[..|h| - 1])
  }

  function LastCheckpoint(h: Log): Option<Cid> {
    if h == [] then None
    else if h[|h| - 1].IsCheckpoint() then Some(h[|h| - 1].cid)
    else LastCheckpoint(h[..|h| - 1])
  }

  /** The arguments announced for a tool, oldest first. */
  function StartsOf(h: Log, tool: string): seq<string> {
    if h == [] then []
    else
      var before := StartsOf(h[..|h| - 1], tool);
      if h[|h| - 1].Started? && h[|h| - 1].tool == tool then before + [h[|h| - 1].args] else before
  }

  /** How many of them results have used up: each result takes one if one is left. */
  function Consumed(h: Log, tool: string): (n: nat)
    ensures n <= |StartsOf(h, tool)|
  {
    if h == [] then 0
    else
      var before := Consumed(h[..|h| - 1], tool);
      if h[|h| - 1].IsResultOf(tool) && before < |StartsOf(h[..|h| - 1], tool)| then before + 1 else before
  }

  /** The start that feeds the result at position `i`: the oldest not yet used, if there is one. */
  function Feeding(h: Log, i: nat): Option<nat>
    requires i < |h| && h[i].Wrote? && h[i].cid.node.ToolResult?
  {
    var tool := h[i].cid.node.tool;
    var c := Consumed(h[..i], tool);
    if c < |StartsOf(h[..i], tool)| then Some(c) else None
  }

  /** Position `i` of a log is as the machine should have written it. */
  predicate EntryOk(h: Log, i: nat)
    requires i < |h|
  {
    h[i].Wrote? ==>
      match h[i].cid.node
      case Checkpoint(_, root, parent) => LastNode(h[..i]) == Some(root) && parent == LastCheckpoint(h[..i])
      case ToolResult(tool, input, _, _) =>
        input == (match Feeding(h, i) case Some(j) => StartsOf(h[..i], tool)[j] case None => "")
      case _ => true
  }

  predicate LogOk(h: Log) {
    forall i :: 0 <= i < |h| ==> EntryOk(h, i)
  }

  // ---- the log of a session ----------------------------------------------------------------------

  function Records(cids: seq<Cid>): Log {
    seq(|cids|, i requires 0 <= i < |cids| => Wrote(cids[i]))
  }

  predicate Handled(known: bool, st: SessionState, it: Item) {
    !Repeated(st, it) && !known
  }

  function Extend(h: Log, it: Item, o: Outcome): Log {
    match it.env.event
    case SessionStarted(_) => []
    case ToolCallStarted(tool, args) => h + [Started(tool, OrElse(args, ""))]
    case _ => h + Records(o.records)
  }

  /** What was announced and written for `sid` since its last session start that was not a repeat. */
  function LogOf(s: Tier, items: seq<Item>, sid: SessionKey): Log {
    if items == [] then []
    else
      var before, it := items[..|items| - 1], items[|items| - 1];
      var w := Run(Start(s), before);
      if it.Session() == sid && Handled(Known(w.store, it), StateOf(w, sid), it)
      then Extend(LogOf(s, before, sid), it, Effect(w, it))
      else LogOf(s, before, sid)
  }

  /** The state a log stands for.  A head also means the start marker has been used. */
  ghost predicate Reflects(st: SessionState, h: Log) {
    && st.head == LastNode(h)
    && st.lastCheckpoint == LastCheckpoint(h)
    && (forall tool :: Queue(st, tool) == StartsOf(h, tool)[Consumed(h, tool)..])
    && (st.head.Some? ==> st.startMarker.None?)
  }

  // ---- one event ---------------------------------------------------------------------------------

  lemma LogSnoc(h: Log, e: Happening, tool: string)
    ensures LastNode(h + [e]) == if e.IsNode() then Some(e.cid) else LastNode(h)
    ensures LastCheckpoint(h + [e]) == if e.IsCheckpoint() then Some(e.cid) else LastCheckpoint(h)
    ensures StartsOf(h + [e], tool) == StartsOf(h, tool) + (if e.Started? && e.tool == tool then [e.args] else [])
    ensures Consumed(h + [e], tool) ==
            Consumed(h, tool) + (if e.IsResultOf(tool) && Consumed(h, tool) < |StartsOf(h, tool)| then 1 else 0)
  {
    assert (h + [e])[..|h|] == h;
  }

  lemma LogOkSnoc(h: Log, e: Happening)
    requires LogOk(h) && EntryOk(h + [e], |h|)
    ensures LogOk(h + [e])
  {
    var h' := h + [e];
    forall i | 0 <= i < |h| ensures EntryOk(h', i) {
      assert EntryOk(h, i) && h'[i] == h[i] && h'[..i] == h[..i];
    }
  }

  lemma NodeExtends(st: SessionState, it: Item, node: Node, h: Log)
    requires !node.Checkpoint? && !node.ToolResult?
    requires Reflects(st, h) && LogOk(h) && WriteNode(st, it, node).failure.None?
    ensures var o := WriteNode(st, it, node);
            Reflects(o.state, h + Records(o.records)) && LogOk(h + Records(o.records))
  {
    var o, e := WriteNode(st, it, node), Wrote(Cid(At(it.clock), node));
    assert Records(o.records) == [e];
    NodeReflects(st, o.state, h, e);
  }

  lemma NodeReflects(st: SessionState, after: SessionState, h: Log, e: Happening)
    requires Reflects(st, h) && LogOk(h) && e.IsNode() && !e.cid.node.ToolResult?
    requires after == st.(head := Some(e.cid), startMarker := None)
    ensures Reflects(after, h + [e]) && LogOk(h + [e])
  {
    QueuesStay(st, after, h, e);
    LogSnoc(h, e, "");
    assert (h + [e])[|h|] == e;
    LogOkSnoc(h, e);
  }

  /** What is written and is no result leaves the queues as they were. */
  lemma QueuesStay(st: SessionState, after: SessionState, h: Log, e: Happening)
    requires after.pendingArgs == st.pendingArgs && e.Wrote? && !e.cid.node.ToolResult?
    requires forall tool :: Queue(st, tool) == StartsOf(h, tool)[Consumed(h, tool)..]
    ensures forall tool :: Queue(after, tool) == StartsOf(h + [e], tool)[Consumed(h + [e], tool)..]
  {
    forall tool ensures Queue(after, tool) == StartsOf(h + [e], tool)[Consumed(h + [e], tool)..] {
      LogSnoc(h, e, tool);
      assert Queue(st, tool) == StartsOf(h, tool)[Consumed(h, tool)..];
    }
  }

  lemma ResultExtends(st: SessionState, it: Item, h: Log)
    requires it.env.event.ToolCallFinished?
    requires Reflects(st, h) && LogOk(h) && Process(st, it).failure.None?
    ensures var o := Process(st, it);
            Reflects(o.state, h + Records(o.records)) && LogOk(h + Records(o.records))
  {
    var name := it.env.event.tool;
    var e := Wrote(Cid(At(it.clock), ContentNode(it, OldestArgs(st, name))));
    var h' := h + [e];
    var o := Process(st, it);
    assert Records(o.records) == [e];
    forall tool ensures Queue(o.state, tool) == StartsOf(h', tool)[Consumed(h', tool)..] {
      LogSnoc(h, e, tool);
      assert Queue(st, tool) == StartsOf(h, tool)[Consumed(h, tool)..];
    }
    LogSnoc(h, e, name);
    assert Queue(st, name) == StartsOf(h, name)[Consumed(h, name)..];
    assert h'[|h|] == e && h'[..|h|] == h;
    LogOkSnoc(h, e);
  }

  lemma CheckpointExtends(st: SessionState, it: Item, title: string, h: Log)
    requires Reflects(st, h) && LogOk(h) && WriteCheckpoint(st, it, title).failure.None?
    ensures var o := WriteCheckpoint(st, it, title);
            Reflects(o.state, h + Records(o.records)) && LogOk(h + Records(o.records))
  {
    var o := WriteCheckpoint(st, it, title);
    if st.head.None? {
      assert h + Records(o.records) == h;
    } else {
      var e := Wrote(Cid(At(it.clock), Checkpoint(title, st.head.value, st.lastCheckpoint)));
      assert Records(o.records) == [e];
      QueuesStay(st, o.state, h, e);
      LogSnoc(h, e, "");
      assert (h + [e])[|h|] == e && (h + [e])[..|h|] == h;
      LogOkSnoc(h, e);
    }
  }

  lemma StartExtends(st: SessionState, tool: string, args: string, h: Log)
    requires Reflects(st, h) && LogOk(h)
    ensures Reflects(PushArgs(st, tool, args), h + [Started(tool, args)]) && LogOk(h + [Started(tool, args)])
  {
    var e := Started(tool, args);
    forall t ensures Queue(PushArgs(st, tool, args), t) == StartsOf(h + [e], t)[Consumed(h + [e], t)..] {
      LogSnoc(h, e, t);
      assert Queue(st, t) == StartsOf(h, t)[Consumed(h, t)..];
    }
    LogSnoc(h, e, tool);
    assert (h + [e])[|h|] == e;
    LogOkSnoc(h, e);
  }

  lemma ProcessExtends(st: SessionState, it: Item, h: Log)
    requires Reflects(st, h) && LogOk(h) && Process(st, it).failure.None?
    ensures var o := Process(st, it); Reflects(o.state, Extend(h, it, o)) && LogOk(Extend(h, it, o))
  {
    match it.env.event
    case SessionStarted(_) =>
    case ToolCallStarted(tool, args) => StartExtends(st, tool, OrElse(args, ""), h);
    case ToolCallFinished(_, _, _) => ResultExtends(st, it, h);
    case CheckpointRequested(title) => CheckpointExtends(st, it, OrElse(title, "checkpoint"), h);
    case SessionEnded => CheckpointExtends(st, it, "session-ended", h);
    case _ => NodeExtends(st, it, ContentNode(it, ""), h);
  }

  // ---- runs --------------------------------------------------------------------------------------

  /** In a run that skipped nothing, each session's state stands for its log, and the log is in order: every
      checkpoint's root is the last node written before it and its parent the checkpoint before it (none for the
      first after a start); every tool result carries the oldest arguments not yet used, or none are left. */
  lemma {:induction false} StateReflectsLog(s: Tier, items: seq<Item>, sid: SessionKey)
    requires Replay.Clean(s, items)
    ensures Reflects(StateOf(Run(Start(s), items), sid), LogOf(s, items, sid)) && LogOk(LogOf(s, items, sid))
  {
    if items != [] {
      var before, it := items[..|items| - 1], items[|items| - 1];
      Replay.CleanPrefix(s, items);
      StateReflectsLog(s, before, sid);
      var w := Run(Start(s), before);
      if it.Session() == sid {
        var st := StateOf(w, sid);
        assert forall tool :: Queue(See(st, it), tool) == Queue(st, tool);
        if Handled(Known(w.store, it), st, it) {
          ProcessExtends(See(st, it), it, LogOf(s, before, sid));
        }
      }
    }
  }

  // ---- the pairing is first in, first out --------------------------------------------------------

  lemma {:induction false} ConsumedGrows(h: Log, i: nat, j: nat, tool: string)
    requires i <= j <= |h|
    ensures Consumed(h[..i], tool) <= Consumed(h[..j], tool)
    decreases j
  {
    if i < j {
      ConsumedGrows(h, i, j - 1, tool);
      assert h[..j] == h[..j - 1] + [h[j - 1]];
      LogSnoc(h[..j - 1], h[j - 1], tool);
    }
  }

  /** No start feeds two results, and starts are used in the order they were announced. */
  lemma NoStartFeedsTwoResults(h: Log, i: nat, j: nat, tool: string)
    requires i < j < |h| && h[i].IsResultOf(tool) && h[j].IsResultOf(tool)
    requires Feeding(h, i).Some? && Feeding(h, j).Some?
    ensures Feeding(h, i).value < Feeding(h, j).value
  {
    assert h[..i + 1] == h[..i] + [h[i]];
    LogSnoc(h[..i], h[i], tool);
    ConsumedGrows(h, i + 1, j, tool);
  }

  /** Whatever start feeds a result, every older one has fed an earlier result; and if none feeds it, all have. */
  lemma {:induction false} OlderStartsAreUsed(h: Log, i: nat, k: nat, tool: string) returns (j: nat)
    requires i <= |h| && k < Consumed(h[..i], tool)
    ensures j < i && h[j].IsResultOf(tool) && Feeding(h, j) == Some(k)
    decreases i
  {
    assert h[..i] == h[..i - 1] + [h[i - 1]];
    LogSnoc(h[..i - 1], h[i - 1], tool);
    if k < Consumed(h[..i - 1], tool) {
      j := OlderStartsAreUsed(h, i - 1, k, tool);
    } else {
      j := i - 1;
    }
  }

  /** Tool results take the oldest arguments.  In a run that skipped nothing, the result at any place of a
      session's log carries the arguments of one announced start of its tool, older ones all having been used by
      earlier results, or, if every start had been used, none. */
  lemma ResultsTakeTheOldestArguments(s: Tier, items: seq<Item>, sid: SessionKey, i: nat, older: nat)
    returns (user: nat)
    requires Replay.Clean(s, items)
    requires i < |LogOf(s, items, sid)| && LogOf(s, items, sid)[i].Wrote?
             && LogOf(s, items, sid)[i].cid.node.ToolResult?
    ensures var h := LogOf(s, items, sid); var result := h[i].cid.node; var starts := StartsOf(h[..i], result.tool);
            && (match Feeding(h, i)
                case Some(j) => j < |starts| && result.input == starts[j]
                case None => result.input == "")
            && (older < |starts| && (Feeding(h, i) == None || older < Feeding(h, i).value) ==>
                  user < i && h[user].IsResultOf(result.tool) && Feeding(h, user) == Some(older))
  {
    var h := LogOf(s, items, sid);
    StateReflectsLog(s, items, sid);
    assert EntryOk(h, i);
    var tool := h[i].cid.node.tool;
    user := 0;
    if older < Consumed(h[..i], tool) {
      user := OlderStartsAreUsed(h, i, older, tool);
    }
  }

  // ---- fresh ingests, and what a re-read does to the pairing ---------------------------------------

  /** In a fresh ingest - nothing of the session's is filed yet, and no other session has an event under one of
      its keys - the log leaves out nothing but repeats, so the pairing is over everything the session did. */
  lemma FreshIngestHandlesAllButRepeats(s: Tier, items: seq<Item>, sid: SessionKey, i: nat)
    requires Replay.Clean(s, items) && Sessions.KeysApart(items, sid)
    requires i < |items| && items[i].Session() == sid && !Known(s, items[i])
    ensures var w := Run(Start(s), items[..i]);
            Handled(Known(w.store, items[i]), StateOf(w, sid), items[i]) <==> Replay.First(items, i)
  {
    var before, it := items[..i], items[i];
    Replay.CleanUpTo(s, items, i);
    Replay.RunMeets(s, before, sid);
    Replay.RunFiles(s, before, it.Date(), it.Key());
    assert forall j :: 0 <= j < |before| ==> before[j] == items[j];
    assert Replay.First(items, i) ==> !Replay.Brings(before, it.Date(), it.Key());
  }

  // ---- the checkpoint chain ----------------------------------------------------------------------

  function CheckpointsOf(h: Log): seq<Cid> {
    if h == [] then []
    else CheckpointsOf(h[..|h| - 1]) + (if h[|h| - 1].IsCheckpoint() then [h[|h| - 1].cid] else [])
  }

  /** Checkpoint `k` points back at the one before it, the first at none. */
  predicate LinksBack(cps: seq<Cid>, k: nat)
    requires k < |cps|
  {
    && cps[k].node.Checkpoint?
    && cps[k].node.parent == (if k == 0 then None else Some(cps[k - 1]))
  }

  predicate Chained(cps: seq<Cid>) {
    forall k :: 0 <= k < |cps| ==> LinksBack(cps, k)
  }

  lemma {:induction false} LogOkIsChained(h: Log)
    requires LogOk(h)
    ensures Chained(CheckpointsOf(h))
    ensures LastCheckpoint(h)
            == (if CheckpointsOf(h) == [] then None else Some(CheckpointsOf(h)[|CheckpointsOf(h)| - 1]))
    ensures LastNode(h).None? ==> CheckpointsOf(h) == []
  {
    if h != [] {
      var n := |h| - 1;
      var before := h[..n];
      forall i | 0 <= i < n ensures EntryOk(before, i) {
        assert EntryOk(h, i) && before[i] == h[i] && before[..i] == h[..i];
      }
      LogOkIsChained(before);
      assert EntryOk(h, n);
      var cps, prior := CheckpointsOf(h), CheckpointsOf(before);
      forall k | 0 <= k < |cps| ensures LinksBack(cps, k) {
        if k < |prior| {
          assert LinksBack(prior, k);
          assert cps[k] == prior[k];
        }
        if 0 < k {
          assert cps[k - 1] == prior[k - 1];
        }
      }
    }
  }

  /** Between resets a session's checkpoints form a linked list, oldest first, ending in the one its state
      will chain the next checkpoint to; and none exists before a node does. */
  lemma CheckpointsFormAChain(s: Tier, items: seq<Item>, sid: SessionKey)
    requires Replay.Clean(s, items)
    ensures var cps := CheckpointsOf(LogOf(s, items, sid)); var st := StateOf(Run(Start(s), items), sid);
            && Chained(cps)
            && st.lastCheckpoint == (if cps == [] then None else Some(cps[|cps| - 1]))
            && (st.head.None? ==> cps == [])
  {
    var h := LogOf(s, items, sid);
    assert LogOk(h) && StateOf(Run(Start(s), items), sid).lastCheckpoint == LastCheckpoint(h)
      && StateOf(Run(Start(s), items), sid).head == LastNode(h) by { StateReflectsLog(s, items, sid); }
    LogOkIsChained(h);
  }

  // ---- what the names resolve to -----------------------------------------------------------------

  /** The names a checkpoint for `env` moves. */
  predicate Follows(n: Name, env: Envelope) {
    match n
    case CheckpointName(sid, title) => sid == SessionOf(env) && CheckpointTitle(env.event) == Some(title)
    case SessionLatest(sid) => sid == SessionOf(env)
    case HostLatest(host) => host == env.hostId
    case ProjectLatest(project) => env.projectId == Some(project)
    case Latest => true
    case _ => false
  }

  /** Names that checkpoints move: their own, and the latest of their session, host, project and of all. */
  predicate MovedByCheckpoints(n: Name) {
    !n.EventMarker?
  }

  /** The last checkpoint a run wrote among those that move `n`. */
  function LastFollowed(s: Tier, items: seq<Item>, n: Name): Option<Cid> {
    if items == [] then None
    else
      var before, it := items[..|items| - 1], items[|items| - 1];
      var o := Effect(Run(Start(s), before), it);
      if o.checkpoints > 0 && o.records != [] && Follows(n, it.env) then Some(o.records[|o.records| - 1])
      else LastFollowed(s, before, n)
  }

  predicate MarkerIsMarker(st: SessionState) {
    st.startMarker.Some? ==> st.startMarker.value.EventMarker?
  }

  lemma {:induction false} MarkersAreMarkers(s: Tier, items: seq<Item>, sid: SessionKey)
    ensures MarkerIsMarker(StateOf(Run(Start(s), items), sid))
  {
    if items != [] {
      var before, it := items[..|items| - 1], items[|items| - 1];
      MarkersAreMarkers(s, before, sid);
      var w := Run(Start(s), before);
      HandleWrites(Known(w.store, it), StateOf(w, it.Session()), it);
    }
  }

  lemma BindEachBinds(s: Tier, names: seq<Name>, cid: Cid, n: Name)
    ensures Lookup(Apply(s, BindEach(names, cid)).names, n) == if n in names then Some(cid) else Lookup(s.names, n)
  {
    if names != [] {
      var before, last := names[..|names| - 1], names[|names| - 1];
      BindEachBinds(s, before, cid, n);
      assert BindEach(names, cid) == BindEach(before, cid) + [BindOne(last, cid)];
      ApplySnoc(s, BindEach(before, cid), BindOne(last, cid));
      assert names == before + [last];
    }
  }

  /** Names that follow the latest checkpoint are bound by nothing but checkpoints. */
  lemma OthersBindNoLatest(known: bool, st: SessionState, it: Item, n: Name)
    requires MarkerIsMarker(st) && MovedByCheckpoints(n)
    requires Handle(known, st, it).checkpoints == 0 && Handle(known, st, it).failure.None?
    ensures !BindsName(Handle(known, st, it).writes, n)
  {
    var st1 := See(st, it);
    match it.env.event
    case SessionStarted(_) =>
    case ToolCallStarted(_, _) =>
    case CheckpointRequested(title) =>
    case SessionEnded =>
    case ToolCallFinished(tool, _, _) =>
      NodeBindsNoLatest(PopArgs(st1, tool), it, ContentNode(it, OldestArgs(st1, tool)), n);
    case FileRead(_) => FileBindsNoLatest(st1, it, n);
    case FileWritten(_) => FileBindsNoLatest(st1, it, n);
    case _ => NodeBindsNoLatest(st1, it, ContentNode(it, ""), n);
  }

  lemma NodeBindsNoLatest(st: SessionState, it: Item, node: Node, n: Name)
    requires MarkerIsMarker(st) && MovedByCheckpoints(n)
    ensures !BindsName(WriteNode(st, it, node).writes, n)
  {
  }

  lemma FileBindsNoLatest(st: SessionState, it: Item, n: Name)
    requires MarkerIsMarker(st) && MovedByCheckpoints(n) && it.env.event.IsFile()
    ensures !BindsName(WriteFile(st, it).writes, n)
  {
    if it.disk.Some? && PutBlob !in it.faults {
      NodeBindsNoLatest(st, it, ContentNode(it, ""), n);
    }
  }

  lemma CheckpointMovesLatest(s: Tier, st: SessionState, it: Item, title: string, n: Name)
    requires MarkerIsMarker(st) && MovedByCheckpoints(n) && CheckpointTitle(it.env.event) == Some(title)
    requires var o := WriteCheckpoint(st, it, title); o.checkpoints > 0 && o.failure.None?
    ensures var o := WriteCheckpoint(st, it, title);
            && |o.records| == 1
            && Lookup(Apply(s, o.writes).names, n)
               == if Follows(n, it.env) then Some(o.records[0]) else Lookup(s.names, n)
  {
    var cp := Cid(At(it.clock), Checkpoint(title, st.head.value, st.lastCheckpoint));
    var names := ScopedNames(it.env, title);
    ScopedNamesAre(it.env, title, n);
    NamesBound(s, st, it, cp, names, n);
  }

  lemma OtherNameBound(s: Tier, ws: seq<Write>, m: Name, cid: Cid, n: Name)
    requires m != n
    ensures Lookup(Apply(s, ws + [BindOne(m, cid)]).names, n) == Lookup(Apply(s, ws).names, n)
  {
    ApplySnoc(s, ws, BindOne(m, cid));
  }

  /** The writes of a checkpoint that went through. */
  lemma CheckpointShape(st: SessionState, it: Item, cp: Cid, names: seq<Name>)
    requires BindCheckpoint(st, it, cp, names).failure.None?
    ensures var ws := [PutOne(cp)] + BindEach(names, cp) + [BindOne(it.Marker(), cp)];
            BindCheckpoint(st, it, cp, names).writes ==
            if st.startMarker.None? || st.startMarker == Some(it.Marker()) then ws
            else ws + [BindOne(st.startMarker.value, cp)]
  {
    assert names[..|names|] == names;
  }

  lemma NamesBound(s: Tier, st: SessionState, it: Item, cp: Cid, names: seq<Name>, n: Name)
    requires MarkerIsMarker(st) && MovedByCheckpoints(n) && BindCheckpoint(st, it, cp, names).failure.None?
    ensures Lookup(Apply(s, BindCheckpoint(st, it, cp, names).writes).names, n)
            == if n in names then Some(cp) else Lookup(s.names, n)
  {
    CheckpointShape(st, it, cp, names);
    var ws := [PutOne(cp)] + BindEach(names, cp);
    ApplyCons(s, PutOne(cp), BindEach(names, cp));
    BindEachBinds(Put(s, cp), names, cp, n);
    OtherNameBound(s, ws, it.Marker(), cp, n);
    if st.startMarker.Some? {
      OtherNameBound(s, ws + [BindOne(it.Marker(), cp)], st.startMarker.value, cp, n);
    }
  }

  lemma ScopedNamesAre(env: Envelope, title: string, n: Name)
    requires MovedByCheckpoints(n) && CheckpointTitle(env.event) == Some(title)
    ensures n in ScopedNames(env, title) <==> Follows(n, env)
  {
  }

  /** After a run that skipped nothing, each session's, host's and project's latest name, and `latest`, resolves
      to the last checkpoint written for that session, host or project, or at all, and the name of a checkpoint's
      title to the session's last one of that title; if the run wrote none, the name is as it was. */
  lemma {:induction false} LatestNamesTheLastCheckpoint(s: Tier, items: seq<Item>, n: Name)
    requires Replay.Clean(s, items) && MovedByCheckpoints(n)
    ensures Lookup(Run(Start(s), items).store.names, n) ==
            if LastFollowed(s, items, n).Some? then LastFollowed(s, items, n) else Lookup(s.names, n)
  {
    if items != [] {
      var before, it := items[..|items| - 1], items[|items| - 1];
      Replay.CleanPrefix(s, items);
      LatestNamesTheLastCheckpoint(s, before, n);
      MarkersAreMarkers(s, before, it.Session());
      LatestStep(Run(Start(s), before), it, n);
    }
  }

  lemma LatestStep(w: World, it: Item, n: Name)
    requires MarkerIsMarker(StateOf(w, it.Session())) && MovedByCheckpoints(n) && Effect(w, it).failure.None?
    ensures var o := Effect(w, it);
            && (o.checkpoints > 0 ==> |o.records| == 1)
            && Lookup(Step(w, it).store.names, n) ==
               if o.checkpoints > 0 && Follows(n, it.env) then Some(o.records[0]) else Lookup(w.store.names, n)
  {
    LatestAfter(w.store, Known(w.store, it), StateOf(w, it.Session()), it, n);
  }

  lemma LatestAfter(s: Tier, known: bool, st: SessionState, it: Item, n: Name)
    requires MarkerIsMarker(st) && MovedByCheckpoints(n) && Handle(known, st, it).failure.None?
    ensures var o := Handle(known, st, it);
            && (o.checkpoints > 0 ==> |o.records| == 1)
            && Lookup(Apply(s, o.writes).names, n) ==
               if o.checkpoints > 0 && Follows(n, it.env) then Some(o.records[0]) else Lookup(s.names, n)
  {
    var o := Handle(known, st, it);
    if o.checkpoints == 0 {
      OthersBindNoLatest(known, st, it, n);
      ApplyBinds(s, o.writes, n);
    } else if it.env.event.CheckpointRequested? {
      CheckpointMovesLatest(s, See(st, it), it, OrElse(it.env.event.title, "checkpoint"), n);
    } else {
      CheckpointMovesLatest(s, See(st, it), it, "session-ended", n);
    }
  }

  // ---- what the report counts ----------------------------------------------------------------------

  function Bindings(ws: seq<Write>): nat {
    if ws == [] then 0 else Bindings(ws[..|ws| - 1]) + (if ws[|ws| - 1].PutOne? then 0 else 1)
  }

  lemma BindEachCounts(names: seq<Name>, cid: Cid)
    ensures Bindings([PutOne(cid)] + BindEach(names, cid)) == |names|
  {
    if names != [] {
      BindEachCounts(names[..|names| - 1], cid);
      var ws := [PutOne(cid)] + BindEach(names, cid);
      assert ws[..|ws| - 1] == [PutOne(cid)] + BindEach(names[..|names| - 1], cid);
    } else {
      assert [PutOne(cid)] + BindEach(names, cid) == [PutOne(cid)];
    }
  }

  lemma CountSnoc(ws: seq<Write>, w: Write)
    ensures Bindings(ws + [w]) == Bindings(ws) + (if w.PutOne? then 0 else 1)
  {
    assert (ws + [w])[..|ws|] == ws;
  }

  /** What one envelope adds to the report is what it did, even when it was cut short: one record per node or
      checkpoint counted, and one name per binding made. */
  predicate CountsTrue(o: Outcome) {
    |o.records| == o.nodes + o.checkpoints && o.bound == Bindings(o.writes)
  }

  lemma NodeCounts(st: SessionState, it: Item, node: Node)
    ensures CountsTrue(WriteNode(st, it, node))
  {
    var cid := Cid(At(it.clock), node);
    var put, file := PutOne(cid), FileOne(it.Date(), it.Key(), cid, it.clock);
    assert Bindings([put]) == 0 by { assert [put] == [] + [put]; CountSnoc([], put); }
    assert [put, file] == [put] + [file];
    CountSnoc([put], file);
    if st.startMarker.Some? {
      CountSnoc([put, file], BindOne(st.startMarker.value, cid));
    }
  }

  lemma FileCounts(st: SessionState, it: Item)
    requires it.env.event.IsFile()
    ensures CountsTrue(WriteFile(st, it))
  {
    if it.disk.Some? && PutBlob !in it.faults {
      NodeCounts(st, it, ContentNode(it, ""));
      PutFirstCounts(PutOne(BlobCid(it)), WriteNode(st, it, ContentNode(it, "")).writes);
    }
  }

  lemma {:induction false} PutFirstCounts(put: Write, ws: seq<Write>)
    requires put.PutOne?
    ensures Bindings([put] + ws) == Bindings(ws)
  {
    if ws == [] {
      assert [put] + ws == [] + [put];
      CountSnoc([], put);
    } else {
      PutFirstCounts(put, ws[..|ws| - 1]);
      assert [put] + ws == [put] + ws[..|ws| - 1] + [ws[|ws| - 1]];
      CountSnoc([put] + ws[..|ws| - 1], ws[|ws| - 1]);
    }
  }

  lemma BindCheckpointCounts(st: SessionState, it: Item, cp: Cid, names: seq<Name>)
    ensures CountsTrue(BindCheckpoint(st, it, cp, names))
  {
    var n := BoundUpTo(names, it.faults, 0);
    var ws := [PutOne(cp)] + BindEach(names[..n], cp);
    BindEachCounts(names[..n], cp);
    CountSnoc(ws, BindOne(it.Marker(), cp));
    if st.startMarker.Some? {
      CountSnoc(ws + [BindOne(it.Marker(), cp)], BindOne(st.startMarker.value, cp));
    }
  }

  lemma CheckpointCounts(st: SessionState, it: Item, title: string)
    ensures CountsTrue(WriteCheckpoint(st, it, title))
  {
    if st.head.Some? {
      var cp := Cid(At(it.clock), Checkpoint(title, st.head.value, st.lastCheckpoint));
      CountSnoc([], PutOne(cp));
      assert [] + [PutOne(cp)] == [PutOne(cp)];
      BindCheckpointCounts(st, it, cp, ScopedNames(it.env, title));
    }
  }

  lemma HandleCounts(known: bool, st: SessionState, it: Item)
    ensures CountsTrue(Handle(known, st, it))
  {
    var st1 := See(st, it);
    match it.env.event
    case SessionStarted(_) =>
    case ToolCallStarted(_, _) =>
    case CheckpointRequested(title) => CheckpointCounts(st1, it, OrElse(title, "checkpoint"));
    case SessionEnded => CheckpointCounts(st1, it, "session-ended");
    case ToolCallFinished(tool, _, _) => NodeCounts(PopArgs(st1, tool), it, ContentNode(it, OldestArgs(st1, tool)));
    case FileRead(_) => FileCounts(st1, it);
    case FileWritten(_) => FileCounts(st1, it);
    case _ => NodeCounts(st1, it, ContentNode(it, ""));
  }

  /** All bindings made during a run. */
  function BindingsOf(s: Tier, items: seq<Item>): nat {
    if items == [] then 0
    else
      var before, it := items[..|items| - 1], items[|items| - 1];
      BindingsOf(s, before) + Bindings(Effect(Run(Start(s), before), it).writes)
  }

  /** On every run, refused calls included, the report's counts are true: every event is counted, as many record
      CIDs are listed as nodes and checkpoints are counted, and as many names as bindings were made. */
  lemma {:induction false} ReportIsTrue(s: Tier, items: seq<Item>)
    ensures var r := Run(Start(s), items).report;
            && r.events == |items| && |r.skipped| <= |items|
            && |r.recordCids| == r.nodesWritten + r.checkpoints
            && r.namesBound == BindingsOf(s, items)
  {
    if items != [] {
      var before, it := items[..|items| - 1], items[|items| - 1];
      ReportIsTrue(s, before);
      var w := Run(Start(s), before);
      HandleCounts(Known(w.store, it), StateOf(w, it.Session()), it);
    }
  }

  // ---- reasoning -----------------------------------------------------------------------------------------

  /** The same event with other reasoning. */
  function Reasoned(it: Item, reasoning: Option<Reasoning>): Item {
    it.(env := it.env.(reasoning := reasoning))
  }

  /** What a checkpoint leaves does not depend on its names. */
  lemma CheckpointLeaves(st: SessionState, it: Item, title: string, c: Cid)
    ensures var o := WriteCheckpoint(st, it, title);
            var there := st.head.Some? && PutCheckpoint !in it.faults;
            && (PutOne(c) in o.writes <==>
                  there && c == Cid(At(it.clock), Checkpoint(title, st.head.value, st.lastCheckpoint)))
            && o.records == if there && LockCheckpoint !in it.faults
                            then [Cid(At(it.clock), Checkpoint(title, st.head.value, st.lastCheckpoint))] else []
  {
    if st.head.Some? && PutCheckpoint !in it.faults && LockCheckpoint !in it.faults {
      var cp := Cid(At(it.clock), Checkpoint(title, st.head.value, st.lastCheckpoint));
      assert BindCheckpoint(st, it, cp, ScopedNames(it.env, title)).writes[0] == PutOne(cp);
    }
  }

  ghost predicate SameNodes(o: Outcome, other: Outcome, c: Cid) {
    o.records == other.records && (PutOne(c) in o.writes <==> PutOne(c) in other.writes)
  }

  lemma KeyHoldsReasoning(it: Item, reasoning: Option<Reasoning>)
    ensures Reasoned(it, reasoning).Key() == it.Key() <==> it.env.eventId.Some? || reasoning == it.env.reasoning
  {
    if it.env.eventId.None? && Reasoned(it, reasoning).Key() == it.Key() {
      assert Fingerprint(Reasoned(it, reasoning).env).reasoning == Fingerprint(it.env).reasoning;
    }
  }

  lemma ProcessIgnoresReasoning(st: SessionState, it: Item, reasoning: Option<Reasoning>, seen: set<EventKey>, c: Cid)
    ensures SameNodes(Process(st, it), Process(st.(seen := seen), Reasoned(it, reasoning)), c)
  {
    match it.env.event
    case CheckpointRequested(title) =>
      CheckpointLeaves(st, it, OrElse(title, "checkpoint"), c);
      CheckpointLeaves(st.(seen := seen), Reasoned(it, reasoning), OrElse(title, "checkpoint"), c);
    case SessionEnded =>
      CheckpointLeaves(st, it, "session-ended", c);
      CheckpointLeaves(st.(seen := seen), Reasoned(it, reasoning), "session-ended", c);
    case _ =>
      if it.env.event.IsContent() {
        ContentIgnoresReasoning(st, it, reasoning, seen, c);
      }
  }

  lemma NodeIgnoresReasoning(st: SessionState, it: Item, node: Node, reasoning: Option<Reasoning>,
                             seen: set<EventKey>, c: Cid)
    ensures SameNodes(WriteNode(st, it, node), WriteNode(st.(seen := seen), Reasoned(it, reasoning), node), c)
  {
  }

  lemma ContentIgnoresReasoning(st: SessionState, it: Item, reasoning: Option<Reasoning>, seen: set<EventKey>, c: Cid)
    requires it.env.event.IsContent()
    ensures SameNodes(Process(st, it), Process(st.(seen := seen), Reasoned(it, reasoning)), c)
  {
    match it.env.event
    case ToolCallFinished(tool, _, _) =>
      NodeIgnoresReasoning(PopArgs(st, tool), it, ContentNode(it, OldestArgs(st, tool)), reasoning, seen, c);
    case FileRead(_) => FileIgnoresReasoning(st, it, reasoning, seen, c);
    case FileWritten(_) => FileIgnoresReasoning(st, it, reasoning, seen, c);
    case UserPrompt(_) => NodeIgnoresReasoning(st, it, ContentNode(it, ""), reasoning, seen, c);
    case ModelResponse(_) => NodeIgnoresReasoning(st, it, ContentNode(it, ""), reasoning, seen, c);
    case DecisionRecorded(_) => NodeIgnoresReasoning(st, it, ContentNode(it, ""), reasoning, seen, c);
    case MemoryRecorded(_) => NodeIgnoresReasoning(st, it, ContentNode(it, ""), reasoning, seen, c);
    case _ =>
  }

  lemma FileIgnoresReasoning(st: SessionState, it: Item, reasoning: Option<Reasoning>, seen: set<EventKey>, c: Cid)
    requires it.env.event.IsFile()
    ensures SameNodes(WriteFile(st, it), WriteFile(st.(seen := seen), Reasoned(it, reasoning)), c)
  {
    if it.disk.Some? {
      NodeIgnoresReasoning(st, it, ContentNode(it, ""), reasoning, seen, c);
    }
  }

  lemma KeyedContentIgnoresReasoning(known: bool, st: SessionState, it: Item, reasoning: Option<Reasoning>)
    requires it.env.eventId.Some? && it.env.event.IsContent()
    ensures Handle(known, st, Reasoned(it, reasoning)) == Handle(known, st, it)
  {
  }

  lemma HandleIgnoresReasoning(known: bool, st: SessionState, it: Item, reasoning: Option<Reasoning>, c: Cid)
    requires Repeated(st, it) <==> Repeated(st, Reasoned(it, reasoning))
    ensures SameNodes(Handle(known, st, it), Handle(known, st, Reasoned(it, reasoning)), c)
  {
    ProcessIgnoresReasoning(See(st, it), it, reasoning, See(st, Reasoned(it, reasoning)).seen, c);
  }

  /** Reasoning leaves no trace: whatever comes with an event, with or without an id, the same nodes are written and
      recorded, unless the event is a repeat with the one and not with the other.  That can only be when it has no id:
      then its key depends on the reasoning.  Content with an id leaves the same names and state, too. */
  lemma ReasoningLeavesNoTrace(known: bool, st: SessionState, it: Item, reasoning: Option<Reasoning>, c: Cid)
    ensures Reasoned(it, reasoning).Key() == it.Key() <==> it.env.eventId.Some? || reasoning == it.env.reasoning
    ensures (Repeated(st, it) <==> Repeated(st, Reasoned(it, reasoning)))
            ==> SameNodes(Handle(known, st, it), Handle(known, st, Reasoned(it, reasoning)), c)
    ensures it.env.eventId.Some? && it.env.event.IsContent()
            ==> Handle(known, st, Reasoned(it, reasoning)) == Handle(known, st, it)
  {
    KeyHoldsReasoning(it, reasoning);
    if Repeated(st, it) <==> Repeated(st, Reasoned(it, reasoning)) {
      HandleIgnoresReasoning(known, st, it, reasoning, c);
    }
    if it.env.eventId.Some? && it.env.event.IsContent() {
      KeyedContentIgnoresReasoning(known, st, it, reasoning);
    }
  }
}
