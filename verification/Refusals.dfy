/** What a refused call leaves: the event is cut short where the call was refused, and nothing else is different. */
module Refusals {
  import opened Basics
  import opened Events
  import opened Store
  import opened Ingest
  import History

  /** The same event with every call granted. */
  function Granted(it: Item): Item {
    it.(faults := {})
  }

  /** The change to the store a call asks for. */
  predicate AsksFor(call: Call, w: Write, it: Item) {
    match call
    case PutBlob => w.PutOne? && w.cid.node.Blob?
    case PutNode => w.PutOne? && !w.cid.node.Blob?
    case RecordDay => w.FileOne?
    case PutCheckpoint => w.PutOne? && w.cid.node.Checkpoint?
    case LockCheckpoint => w.BindOne? && w.name.CheckpointName?
    case BindScoped(i) => w.BindOne? && w.name != it.Marker()
    case BindMarker => w.BindOne? && w.name == it.Marker()
    case BindStart => w.BindOne?
    case _ => false
  }

  /** The writes are those of the event with every call granted, up to the one the refused call asks for. */
  predicate CutShort(o: Outcome, full: Outcome, it: Item) {
    && o.writes <= full.writes && (o.failure.None? ==> o == full)
    && (o.failure.Some? ==> |o.writes| < |full.writes| && AsksFor(o.failure.value, full.writes[|o.writes|], it))
  }

  /** What a node that was not written through leaves of the state: it is the head once it is stored, and a start that
      waits for its marker is given up once it is filed. */
  predicate NodeState(o: Outcome, full: Outcome, st: SessionState) {
    && |full.records| == 1
    && o.state.head == (if PutOne(full.records[0]) in o.writes then Some(full.records[0]) else st.head)
    && o.state.startMarker == (if exists w :: w in o.writes && w.FileOne? then None else st.startMarker)
    && o.state.lastCheckpoint == st.lastCheckpoint && o.state.pendingArgs == st.pendingArgs && o.state.seen == st.seen
  }

  lemma NodeIsCutShort(st: SessionState, it: Item, node: Node)
    requires !node.Blob?
    ensures var o, full := WriteNode(st, it, node), WriteNode(st, Granted(it), node);
            CutShort(o, full, it) && NodeState(o, full, st) && (o.failure.Some? ==> o.records == [])
  {
    var o, cid := WriteNode(st, it, node), Cid(At(it.clock), node);
    var put, file := PutOne(cid), FileOne(it.Date(), it.Key(), cid, it.clock);
    assert o.writes == [] || o.writes[0] == put;
    assert |o.writes| >= 2 ==> o.writes[1] == file;
  }

  lemma FileIsCutShort(st: SessionState, it: Item)
    requires it.env.event.IsFile() && it.disk.Some?
    ensures var o, full := WriteFile(st, it), WriteFile(st, Granted(it));
            CutShort(o, full, it) && NodeState(o, full, st) && (o.failure.Some? ==> o.records == [])
  {
    var node, blob := ContentNode(it, ""), [PutOne(BlobCid(it))];
    NodeIsCutShort(st, it, node);
    assert WriteFile(st, Granted(it)).writes == blob + WriteNode(st, Granted(it), node).writes;
    if PutBlob !in it.faults {
      BehindThis(blob, WriteNode(st, it, node), WriteNode(st, Granted(it), node), it);
      var ws := WriteNode(st, it, node).writes;
      assert forall w :: w in blob + ws <==> w in blob || w in ws;
    }
  }

  lemma BehindThis(ws: seq<Write>, o: Outcome, full: Outcome, it: Item)
    requires CutShort(o, full, it)
    ensures ws + o.writes <= ws + full.writes
    ensures o.failure.Some? ==> (ws + full.writes)[|ws + o.writes|] == full.writes[|o.writes|]
  {
  }

  lemma EachOf(names: seq<Name>, n: nat, cp: Cid)
    requires n <= |names|
    ensures BindEach(names[..n], cp) <= BindEach(names, cp)
  {
  }

  lemma NamesBehindThePut(cp: Cid, names: seq<Name>)
    ensures var put := [PutOne(cp)] + BindEach(names, cp);
            && |put| == |names| + 1 && put[0] == PutOne(cp)
            && forall i :: 0 <= i < |names| ==> put[i + 1] == BindOne(names[i], cp)
  {
    var each := BindEach(names, cp);
    var put := [PutOne(cp)] + each;
    forall i | 0 <= i < |names| ensures put[i + 1] == BindOne(names[i], cp) {
      assert put[i + 1] == each[i];
    }
  }

  lemma Begins(a: seq<Write>, w: Write, more: seq<Write>, full: seq<Write>)
    requires full == a + [w] || full == a + [w] + more
    ensures a <= full && |full| > |a| && full[|a|] == w
    ensures forall i :: 0 <= i < |a| ==> full[i] == a[i]
  {
  }

  /** A checkpoint binds its names, then its own marker, then the start's. */
  lemma AllNames(st: SessionState, it: Item, cp: Cid, names: seq<Name>)
    ensures var full, put := BindCheckpoint(st, Granted(it), cp, names).writes, [PutOne(cp)] + BindEach(names, cp);
            && put <= full && (forall i :: 0 <= i < |names| ==> full[i + 1] == BindOne(names[i], cp))
            && |full| > |names| + 1 && full[0] == PutOne(cp) && full[|names| + 1] == BindOne(it.Marker(), cp)
  {
    var put, start := [PutOne(cp)] + BindEach(names, cp), if st.startMarker.Some? then st.startMarker.value else Latest;
    History.CheckpointShape(st, Granted(it), cp, names);
    NamesBehindThePut(cp, names);
    Begins(put, BindOne(it.Marker(), cp), [BindOne(start, cp)], BindCheckpoint(st, Granted(it), cp, names).writes);
  }

  lemma NamesAreCutShort(st: SessionState, it: Item, cp: Cid, names: seq<Name>)
    requires cp.node.Checkpoint? && it.Marker() !in names
    ensures var o, full := BindCheckpoint(st, it, cp, names), BindCheckpoint(st, Granted(it), cp, names);
            CutShort(o, full, it) && (o.failure.Some? ==> o.state == st && o.records == [cp])
  {
    AllNames(st, it, cp, names);
    EachOf(names, BoundUpTo(names, it.faults, 0), cp);
    assert names[..|names|] == names;
  }

  /** A checkpoint's names are bound the most specific first. */
  lemma NamesInOrder(it: Item, title: string)
    ensures var names, sid := ScopedNames(it.env, title), SessionKey(it.env.hostId, it.env.sessionId);
            && |names| == (if it.env.projectId.Some? then 5 else 4) && it.Marker() !in names
            && names[0] == CheckpointName(sid, title) && names[1] == SessionLatest(sid)
            && names[2] == HostLatest(it.env.hostId) && names[|names| - 1] == Latest
            && (it.env.projectId.Some? ==> names[3] == ProjectLatest(it.env.projectId.value))
  {
  }

  lemma CheckpointIsCutShort(st: SessionState, it: Item, title: string)
    ensures var o, full := WriteCheckpoint(st, it, title), WriteCheckpoint(st, Granted(it), title);
            CutShort(o, full, it) && (o.failure.Some? ==> o.state == st)
  {
    if st.head.Some? {
      var cp := Cid(At(it.clock), Checkpoint(title, st.head.value, st.lastCheckpoint));
      NamesInOrder(it, title);
      AllNames(st, it, cp, ScopedNames(it.env, title));
      NamesAreCutShort(st, it, cp, ScopedNames(it.env, title));
    }
  }

  /** An event that is handled stops where it is refused. */
  predicate Stops(o: Outcome, full: Outcome, st: SessionState, it: Item) {
    && CutShort(o, full, it)
    && (o.failure.Some? && !it.env.event.IsContent() ==> o.state == st)
    && (o.failure.Some? && it.env.event.IsContent() ==> NodeState(o, full, Used(st, it.env.event)))
  }

  lemma PlainNodeStops(st: SessionState, it: Item)
    requires it.env.event.IsContent() && !it.env.event.ToolCallFinished? && !it.env.event.IsFile()
    ensures Stops(Process(st, it), Process(st, Granted(it)), st, it)
  {
    NodeIsCutShort(st, it, ContentNode(it, ""));
  }

  lemma ResultStops(st: SessionState, it: Item)
    requires it.env.event.ToolCallFinished?
    ensures Stops(Process(st, it), Process(st, Granted(it)), st, it)
  {
    var tool := it.env.event.tool;
    NodeIsCutShort(PopArgs(st, tool), it, ContentNode(it, OldestArgs(st, tool)));
  }

  lemma ProcessStops(st: SessionState, it: Item)
    requires it.env.event.IsFile() ==> it.disk.Some?
    ensures Stops(Process(st, it), Process(st, Granted(it)), st, it)
  {
    match it.env.event
    case SessionStarted(_) =>
    case ToolCallStarted(_, _) =>
    case CheckpointRequested(title) => CheckpointIsCutShort(st, it, OrElse(title, "checkpoint"));
    case SessionEnded => CheckpointIsCutShort(st, it, "session-ended");
    case FileRead(_) => FileIsCutShort(st, it);
    case FileWritten(_) => FileIsCutShort(st, it);
    case ToolCallFinished(_, _, _) => ResultStops(st, it);
    case _ => PlainNodeStops(st, it);
  }

  /** A refusal cuts an event short and does nothing else: asked about the day, it leaves the event undone; after that
      it leaves the writes before the one refused, and of the state, for a checkpoint nothing new, and for a node what
      was written - with the oldest arguments of its tool used up, and a start's marker given up once the node is
      filed, even if it is that marker that was refused. */
  lemma RefusalsCutShort(known: bool, st: SessionState, it: Item)
    requires it.env.event.IsFile() ==> it.disk.Some?
    ensures var o, full := Handle(known, st, it), Handle(known, st, Granted(it));
            if o.failure == Some(AskDay) then o.writes == [] && o.records == [] && o.state == See(st, it)
            else Stops(o, full, See(st, it), it)
  {
    ProcessStops(See(st, it), it);
  }

  /** The state without the oldest arguments of a result's tool. */
  function Used(st: SessionState, e: Event): SessionState {
    if e.ToolCallFinished? && e.tool in st.pendingArgs && st.pendingArgs[e.tool] != []
    then st.(pendingArgs := st.pendingArgs[e.tool := st.pendingArgs[e.tool][1..]]) else st
  }
}
