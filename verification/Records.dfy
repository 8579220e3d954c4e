/** What the records of an ingest say: each tells the event it was made for, kind by kind, and each was made for one. */
module Records {
  import opened Basics
  import opened Events
  import opened Store
  import opened Ingest
  import Replay
  import Filing
  import History

  /** The node tells the content event: it is of the event's kind and says what the event says. */
  predicate Tells(node: Node, it: Item) {
    var e := it.env.event;
    && (node.Prompt? <==> e.UserPrompt?)
    && (node.Response? <==> e.ModelResponse?)
    && (node.ToolResult? <==> e.ToolCallFinished?)
    && (node.FileRef? <==> e.FileRead? || e.FileWritten?)
    && (node.Decision? <==> e.DecisionRecorded?)
    && (node.Memory? <==> e.MemoryRecorded?)
    && (node.Prompt? ==> node.text == e.text)
    && (node.Response? ==> node.text == e.text && node.model == "unknown")
    && (node.ToolResult? ==>
          && node.tool == e.tool && node.ok == e.ok
          && node.output == if e.resultJson.Some? then e.resultJson.value else "")
    && (node.FileRef? ==>
          && it.disk.Some? && node.path == e.path && node.size == |it.disk.value.bytes|
          && node.content.node == Blob(it.disk.value.bytes, it.disk.value.mediaType))
    && (node.Decision? ==> node.choice == e.text && node.question == "" && node.rationale == "")
    && (node.Memory? ==> node.text == e.text && node.kind == "reference")
  }

  lemma ContentNodeTells(it: Item, input: string)
    requires it.env.event.IsContent() && (it.env.event.IsFile() ==> it.disk.Some?)
    ensures Tells(ContentNode(it, input), it)
  {
  }

  // ---- what one event files --------------------------------------------------------------------------------

  /** Whatever is filed is a record made then, is stored, with the file it refers to, and tells the event. */
  predicate FilesWhatItTells(ws: seq<Write>, it: Item) {
    forall i :: 0 <= i < |ws| && ws[i].FileOne? ==>
      && ws[i].record.createdAt == At(it.clock) && Tells(ws[i].record.node, it)
      && PutOne(ws[i].record) in ws
  }

  predicate StoresTheFile(ws: seq<Write>) {
    forall i :: 0 <= i < |ws| && ws[i].FileOne? && ws[i].record.node.FileRef? ==>
        PutOne(ws[i].record.node.content) in ws
  }

  lemma WriteNodeTells(st: SessionState, it: Item, node: Node)
    requires Tells(node, it)
    ensures FilesWhatItTells(WriteNode(st, it, node).writes, it)
    ensures !node.FileRef? ==> StoresTheFile(WriteNode(st, it, node).writes)
  {
    var ws, cid := WriteNode(st, it, node).writes, Cid(At(it.clock), node);
    assert ws != [] ==> ws[0] == PutOne(cid);
  }

  lemma WriteFileTells(st: SessionState, it: Item)
    requires it.env.event.IsFile()
    ensures FilesWhatItTells(WriteFile(st, it).writes, it) && StoresTheFile(WriteFile(st, it).writes)
  {
    if it.disk.Some? && PutBlob !in it.faults {
      var node := ContentNode(it, "");
      ContentNodeTells(it, "");
      WriteNodeTells(st, it, node);
      BlobBefore(BlobCid(it), WriteNode(st, it, node).writes, it);
      FiledAsNode(st, it, node);
    }
  }

  lemma FiledAsNode(st: SessionState, it: Item, node: Node)
    ensures var ws := WriteNode(st, it, node).writes;
            forall i :: 0 <= i < |ws| && ws[i].FileOne? ==> ws[i].record.node == node
  {
  }

  lemma BlobBefore(blob: Cid, ws: seq<Write>, it: Item)
    requires FilesWhatItTells(ws, it)
    ensures FilesWhatItTells([PutOne(blob)] + ws, it) && PutOne(blob) in [PutOne(blob)] + ws
    ensures forall i :: 0 <= i < |ws| ==> ([PutOne(blob)] + ws)[i + 1] == ws[i]
  {
    var all := [PutOne(blob)] + ws;
    assert all[0] == PutOne(blob);
    forall i | 0 <= i < |all| && all[i].FileOne?
      ensures all[i].record.createdAt == At(it.clock) && Tells(all[i].record.node, it) && PutOne(all[i].record) in all
    {
      assert all[i] == ws[i - 1];
    }
  }

  lemma CheckpointsFileNothing(st: SessionState, it: Item, title: string)
    ensures FilesWhatItTells(WriteCheckpoint(st, it, title).writes, it)
    ensures StoresTheFile(WriteCheckpoint(st, it, title).writes)
  {
  }

  lemma ProcessTells(st: SessionState, it: Item)
    ensures FilesWhatItTells(Process(st, it).writes, it) && StoresTheFile(Process(st, it).writes)
  {
    match it.env.event
    case SessionStarted(_) =>
    case ToolCallStarted(_, _) =>
    case CheckpointRequested(title) => CheckpointsFileNothing(st, it, OrElse(title, "checkpoint"));
    case SessionEnded => CheckpointsFileNothing(st, it, "session-ended");
    case FileRead(_) => WriteFileTells(st, it);
    case FileWritten(_) => WriteFileTells(st, it);
    case ToolCallFinished(tool, _, _) =>
      ContentNodeTells(it, OldestArgs(st, tool));
      WriteNodeTells(PopArgs(st, tool), it, ContentNode(it, OldestArgs(st, tool)));
    case _ =>
      ContentNodeTells(it, "");
      WriteNodeTells(st, it, ContentNode(it, ""));
  }

  lemma {:induction false} FiledIsWritten(s: Tier, ws: seq<Write>, date: string, key: EventKey) returns (i: nat)
    requires FilesUnder(ws, date, key)
    ensures i < |ws| && ws[i].FileOne? && ws[i].date == date && ws[i].key == key
    ensures FiledRecord(Apply(s, ws), date, key) == Some(ws[i].record)
  {
    i := |ws| - 1;
    var before := ws[..i];
    if !(ws[i].FileOne? && ws[i].date == date && ws[i].key == key) {
      var j :| 0 <= j < |ws| && ws[j].FileOne? && ws[j].date == date && ws[j].key == key;
      assert before[j] == ws[j];
      i := FiledIsWritten(s, before, date, key);
      LaterWriteKeeps(Apply(s, before), ws[|ws| - 1], date, key);
    }
  }

  lemma LaterWriteKeeps(s: Tier, w: Write, date: string, key: EventKey)
    requires !(w.FileOne? && w.date == date && w.key == key)
    ensures FiledRecord(Do(s, w), date, key) == FiledRecord(s, date, key)
  {
  }

  lemma {:induction false} PutIsStored(s: Tier, ws: seq<Write>, c: Cid)
    requires PutOne(c) in ws || c in s.nodes
    ensures c in Apply(s, ws).nodes
  {
    if ws != [] {
      var before, last := ws[..|ws| - 1], ws[|ws| - 1];
      if last != PutOne(c) {
        SplitLast(ws);
        PutIsStored(s, before, c);
      }
    }
  }

  // ---- runs ------------------------------------------------------------------------------------------------

  /** Event `i` was filed under this date and key as this record, which tells it. */
  predicate FiledFor(items: seq<Item>, i: nat, date: string, key: EventKey, record: Cid) {
    && i < |items| && items[i].env.event.IsContent() && items[i].Date() == date && items[i].Key() == key
    && record.createdAt == At(items[i].clock) && Tells(record.node, items[i])
  }

  /** The record is stored, and so is the file it refers to. */
  predicate IsStored(s: Tier, record: Cid) {
    record in s.nodes && (record.node.FileRef? ==> record.node.content in s.nodes)
  }

  lemma StepTells(w: World, it: Item, date: string, key: EventKey)
    requires !DayContains(w.store, date, key) && DayContains(Step(w, it).store, date, key)
    ensures FiledRecord(Step(w, it).store, date, key).Some?
    ensures FiledFor([it], 0, date, key, FiledRecord(Step(w, it).store, date, key).value)
    ensures IsStored(Step(w, it).store, FiledRecord(Step(w, it).store, date, key).value)
  {
    var ws := Effect(w, it).writes;
    Replay.StepFiles(w, it, date, key);
    ApplyFiles(w.store, ws, date, key);
    var i := FiledIsWritten(w.store, ws, date, key);
    ProcessTells(See(StateOf(w, it.Session()), it), it);
    PutIsStored(w.store, ws, ws[i].record);
    if ws[i].record.node.FileRef? {
      PutIsStored(w.store, ws, ws[i].record.node.content);
    }
  }

  lemma StepKeeps(w: World, it: Item, date: string, key: EventKey)
    requires DayContains(w.store, date, key)
    ensures FiledRecord(Step(w, it).store, date, key) == FiledRecord(w.store, date, key)
    ensures forall c :: c in w.store.nodes ==> c in Step(w, it).store.nodes
  {
    forall c | c in w.store.nodes ensures c in Step(w, it).store.nodes {
      PutIsStored(w.store, Effect(w, it).writes, c);
    }
    HandleWrites(Known(w.store, it), StateOf(w, it.Session()), it);
    ApplyFiles(w.store, Effect(w, it).writes, date, key);
  }

  /** Every new record tells an event.  Whatever is refused on the way, an entry a run adds to the day index is filed
      under the date and key of one of its content events, at that event's time, as a node that tells that event. */
  lemma {:induction false} NewRecordsTell(s: Tier, items: seq<Item>, date: string, key: EventKey) returns (i: nat)
    requires !DayContains(s, date, key) && DayContains(Run(Start(s), items).store, date, key)
    ensures FiledRecord(Run(Start(s), items).store, date, key).Some?
    ensures FiledFor(items, i, date, key, FiledRecord(Run(Start(s), items).store, date, key).value)
    ensures IsStored(Run(Start(s), items).store, FiledRecord(Run(Start(s), items).store, date, key).value)
  {
    var before, it := items[..|items| - 1], items[|items| - 1];
    var w := Run(Start(s), before);
    if DayContains(w.store, date, key) {
      i := NewRecordsTell(s, before, date, key);
      StepKeeps(w, it, date, key);
      assert items[i] == before[i];
    } else {
      StepTells(w, it, date, key);
      i := |items| - 1;
    }
  }

  /** And every new content event is told.  In a clean ingest, the entry of a content event that is the first of its
      session with its key, and was not filed before, holds a record that tells an event with that date and key - the
      event itself, if no two events share a key. */
  lemma NewContentIsTold(s: Tier, items: seq<Item>, i: nat) returns (j: nat)
    requires Replay.Clean(s, items) && i < |items| && items[i].env.event.IsContent()
    requires Replay.First(items, i) && !Known(s, items[i])
    ensures var after := IngestAll(s, items).store;
            && FiledRecord(after, items[i].Date(), items[i].Key()).Some?
            && FiledFor(items, j, items[i].Date(), items[i].Key(),
                FiledRecord(after, items[i].Date(), items[i].Key()).value)
            && IsStored(after, FiledRecord(after, items[i].Date(), items[i].Key()).value)
    ensures Filing.DistinctKeys(items) ==> j == i
  {
    assert Replay.Brings(items, items[i].Date(), items[i].Key());
    Replay.RunFiles(s, items, items[i].Date(), items[i].Key());
    j := NewRecordsTell(s, items, items[i].Date(), items[i].Key());
    RollUpKeepsRecords(Run(Start(s), items).store, items[i].Date(), items[i].Key());
  }

  lemma RollUpKeepsRecords(s: Tier, date: string, key: EventKey)
    ensures FiledRecord(RollUp(s), date, key) == FiledRecord(s, date, key)
    ensures forall c :: c in s.nodes ==> c in RollUp(s).nodes
  {
  }

  // ---- the records of a run, in order ------------------------------------------------------------------------

  /** Whether the session has written a node since its last start. */
  function HasNode(items: seq<Item>, sid: SessionKey): bool {
    if items == [] then false
    else
      var it := items[|items| - 1];
      if it.Session() != sid then HasNode(items[..|items| - 1], sid)
      else if it.env.event.SessionStarted? then false
      else it.env.event.IsContent() || HasNode(items[..|items| - 1], sid)
  }

  /** The events that leave a record: content, and requests for a checkpoint once there is a node to point at. */
  function Recorded(items: seq<Item>): seq<nat> {
    if items == [] then []
    else
      var n := |items| - 1;
      var it := items[n];
      if it.env.event.IsContent() || (CheckpointTitle(it.env.event).Some? && HasNode(items[..n], it.Session()))
      then Recorded(items[..n]) + [n] else Recorded(items[..n])
  }

  /** The record tells the event: content as its node, a request as a checkpoint with its title. */
  predicate RecordOf(record: Cid, it: Item) {
    && record.createdAt == At(it.clock)
    && if it.env.event.IsContent() then Tells(record.node, it)
       else record.node.Checkpoint? && Some(record.node.title) == CheckpointTitle(it.env.event)
  }

  /** What one handled event adds to the records and files, and whether it leaves the session a head. */
  predicate Adds(o: Ingest.Outcome, st: SessionState, it: Item) {
    && o.blobs == FilesOf(o.records)
    && if it.env.event.IsContent() then |o.records| == 1 && RecordOf(o.records[0], it)
        && o.state.head == Some(o.records[0])
    else if CheckpointTitle(it.env.event).Some? && st.head.Some? then
      && |o.records| == 1 && RecordOf(o.records[0], it) && o.state.head == st.head
      && o.records[0].node.root == st.head.value && o.records[0].node.parent == st.lastCheckpoint
    else o.records == [] && o.state.head == if it.env.event.SessionStarted? then None else st.head
  }

  lemma NodeAdds(st: SessionState, it: Item, node: Node)
    requires it.env.event.IsContent() && Tells(node, it) && WriteNode(st, it, node).failure.None?
    ensures !node.FileRef? ==> Adds(WriteNode(st, it, node), st, it)
    ensures node.FileRef? ==> Adds(WriteNode(st, it, node).(blobs := [node.content]), st, it)
  {
    OneFile(Cid(At(it.clock), node));
  }

  lemma OneFile(record: Cid)
    ensures FilesOf([record]) == if record.node.FileRef? then [record.node.content] else []
  {
    assert [record][..0] == [];
  }

  lemma PlainContentAdds(st: SessionState, it: Item)
    requires it.env.event.IsContent() && !it.env.event.ToolCallFinished? && Process(st, it).failure.None?
    ensures Adds(Process(st, it), st, it)
  {
    ContentNodeTells(it, "");
    NodeAdds(st, it, ContentNode(it, ""));
  }

  lemma ContentAdds(st: SessionState, it: Item)
    requires it.env.event.IsContent() && Process(st, it).failure.None?
    ensures Adds(Process(st, it), st, it)
  {
    match it.env.event
    case ToolCallFinished(tool, _, _) =>
      ContentNodeTells(it, OldestArgs(st, tool));
      NodeAdds(PopArgs(st, tool), it, ContentNode(it, OldestArgs(st, tool)));
    case UserPrompt(_) => PlainContentAdds(st, it);
    case ModelResponse(_) => PlainContentAdds(st, it);
    case FileRead(_) => PlainContentAdds(st, it);
    case FileWritten(_) => PlainContentAdds(st, it);
    case DecisionRecorded(_) => PlainContentAdds(st, it);
    case MemoryRecorded(_) => PlainContentAdds(st, it);
    case _ =>
  }

  lemma CheckpointAdds(st: SessionState, it: Item, title: string)
    requires CheckpointTitle(it.env.event) == Some(title) && WriteCheckpoint(st, it, title).failure.None?
    ensures Adds(WriteCheckpoint(st, it, title), st, it)
  {
    if st.head.Some? {
      OneFile(Cid(At(it.clock), Checkpoint(title, st.head.value, st.lastCheckpoint)));
    }
  }

  lemma ProcessAdds(st: SessionState, it: Item)
    requires Process(st, it).failure.None?
    ensures Adds(Process(st, it), st, it)
  {
    match it.env.event
    case SessionStarted(_) =>
    case ToolCallStarted(_, _) =>
    case CheckpointRequested(title) => CheckpointAdds(st, it, OrElse(title, "checkpoint"));
    case SessionEnded => CheckpointAdds(st, it, "session-ended");
    case _ => ContentAdds(st, it);
  }

  /** Over a store that knows nothing of them, clean runs of events that share no key handle every one. */
  ghost predicate AllNew(s: Tier, items: seq<Item>) {
    Replay.Clean(s, items) && Filing.DistinctKeys(items) && Filing.KnownUpTo(s, items, 0)
  }

  lemma NextAdds(s: Tier, items: seq<Item>, i: nat)
    requires AllNew(s, items) && i < |items|
    ensures var w, it := Run(Start(s), items[..i]), items[i];
            && Run(Start(s), items[..i + 1]) == Step(w, it)
            && Adds(Effect(w, it), StateOf(w, it.Session()), it)
  {
    Filing.Meets(s, items, 0, i);
    var w, it := Run(Start(s), items[..i]), items[i];
    ProcessAdds(See(StateOf(w, it.Session()), it), it);
  }

  lemma NextHead(s: Tier, items: seq<Item>, i: nat, sid: SessionKey)
    requires AllNew(s, items) && i < |items|
    requires StateOf(Run(Start(s), items[..i]), sid).head.Some? <==> HasNode(items[..i], sid)
    ensures StateOf(Run(Start(s), items[..i + 1]), sid).head.Some? <==> HasNode(items[..i + 1], sid)
  {
    NextAdds(s, items, i);
    PrefixOfPrefix(items, i + 1, i);
    var w := Run(Start(s), items[..i]);
    assert sid != items[i].Session() ==> StateOf(Step(w, items[i]), sid) == StateOf(w, sid);
  }

  lemma {:induction false} HeadsAreNodes(s: Tier, items: seq<Item>, i: nat, sid: SessionKey)
    requires AllNew(s, items) && i <= |items|
    ensures StateOf(Run(Start(s), items[..i]), sid).head.Some? <==> HasNode(items[..i], sid)
  {
    if i == 0 {
      assert items[..0] == [];
    } else {
      HeadsAreNodes(s, items, i - 1, sid);
      NextHead(s, items, i - 1, sid);
    }
  }

  predicate RecordsTell(records: seq<Cid>, items: seq<Item>, told: seq<nat>) {
    |records| == |told| && forall k :: 0 <= k < |told| ==> told[k] < |items| && RecordOf(records[k], items[told[k]])
  }

  lemma OneMoreTold(records: seq<Cid>, items: seq<Item>, told: seq<nat>, more: seq<Cid>, i: nat)
    requires RecordsTell(records, items, told) && i < |items|
    ensures more == [] ==> records + more == records
    ensures |more| == 1 && RecordOf(more[0], items[i]) ==> RecordsTell(records + more, items, told + [i])
  {
  }

  lemma {:induction false} RecordsTellUpTo(s: Tier, items: seq<Item>, i: nat)
    requires AllNew(s, items) && i <= |items|
    ensures RecordsTell(Run(Start(s), items[..i]).report.recordCids, items, Recorded(items[..i]))
  {
    if i == 0 {
      assert items[..0] == [];
    } else {
      RecordsTellUpTo(s, items, i - 1);
      NextTold(s, items, i - 1);
    }
  }

  lemma NextTold(s: Tier, items: seq<Item>, i: nat)
    requires AllNew(s, items) && i < |items|
    requires RecordsTell(Run(Start(s), items[..i]).report.recordCids, items, Recorded(items[..i]))
    ensures RecordsTell(Run(Start(s), items[..i + 1]).report.recordCids, items, Recorded(items[..i + 1]))
  {
    var w, it := Run(Start(s), items[..i]), items[i];
    NextAdds(s, items, i);
    HeadsAreNodes(s, items, i, it.Session());
    PrefixOfPrefix(items, i + 1, i);
    OneMoreTold(w.report.recordCids, items, Recorded(items[..i]), Effect(w, it).records, i);
  }

  /** The records of a run, in order, tell its events, in order: each content event as its node, and each request for a
      checkpoint or end of a session as a checkpoint of that title, once the session has written a node since its start;
      nothing else leaves a record. */
  lemma RecordsTellTheirEvents(s: Tier, items: seq<Item>)
    requires AllNew(s, items)
    ensures RecordsTell(Run(Start(s), items).report.recordCids, items, Recorded(items))
  {
    assert items[..|items|] == items;
    RecordsTellUpTo(s, items, |items|);
  }

  // ---- markers -----------------------------------------------------------------------------------------------

  /** The names a handled event leaves bound to its record: the marker of a start that waited and, for a checkpoint, the
      event's own marker. */
  predicate MarkersPoint(s: Tier, o: Ingest.Outcome, st: SessionState, it: Item) {
    o.records != [] ==>
      && o.state.startMarker.None?
      && (st.startMarker.Some? ==> Lookup(Apply(s, o.writes).names, st.startMarker.value) == Some(o.records[0]))
      && (!it.env.event.IsContent() ==> Lookup(Apply(s, o.writes).names, it.Marker()) == Some(o.records[0]))
  }

  lemma LastBound(s: Tier, ws: seq<Write>, n: Name, cid: Cid)
    ensures Lookup(Apply(s, ws + [BindOne(n, cid)]).names, n) == Some(cid)
  {
    ApplySnoc(s, ws, BindOne(n, cid));
  }

  lemma BoundBefore(s: Tier, ws: seq<Write>, m: Name, n: Name, cid: Cid)
    requires Lookup(Apply(s, ws).names, m) == Some(cid)
    ensures Lookup(Apply(s, ws + [BindOne(n, cid)]).names, m) == Some(cid)
  {
    ApplySnoc(s, ws, BindOne(n, cid));
  }

  lemma NodeMarks(s: Tier, st: SessionState, it: Item, node: Node)
    requires it.env.event.IsContent() && WriteNode(st, it, node).failure.None?
    ensures MarkersPoint(s, WriteNode(st, it, node), st, it)
  {
    var cid := Cid(At(it.clock), node);
    if st.startMarker.Some? {
      LastBound(s, [PutOne(cid), FileOne(it.Date(), it.Key(), cid, it.clock)], st.startMarker.value, cid);
    }
  }

  lemma FileMarks(s: Tier, st: SessionState, it: Item)
    requires it.env.event.IsFile() && WriteFile(st, it).failure.None?
    ensures MarkersPoint(s, WriteFile(st, it), st, it)
  {
    var o := WriteNode(st, it, ContentNode(it, ""));
    ApplyCons(s, PutOne(BlobCid(it)), o.writes);
    NodeMarks(Put(s, BlobCid(it)), st, it, ContentNode(it, ""));
  }

  lemma MarkersBound(s: Tier, ws: seq<Write>, own: Name, start: Option<Name>, cid: Cid)
    ensures var bound := ws + [BindOne(own, cid)];
            var all := if start.None? || start == Some(own) then bound else bound + [BindOne(start.value, cid)];
            && Lookup(Apply(s, all).names, own) == Some(cid)
            && (start.Some? ==> Lookup(Apply(s, all).names, start.value) == Some(cid))
  {
    LastBound(s, ws, own, cid);
    if start.Some? {
      BoundBefore(s, ws + [BindOne(own, cid)], own, start.value, cid);
      LastBound(s, ws + [BindOne(own, cid)], start.value, cid);
    }
  }

  lemma NamesMark(s: Tier, st: SessionState, it: Item, cp: Cid, names: seq<Name>)
    requires !it.env.event.IsContent() && BindCheckpoint(st, it, cp, names).failure.None?
    ensures MarkersPoint(s, BindCheckpoint(st, it, cp, names), st, it)
  {
    History.CheckpointShape(st, it, cp, names);
    MarkersBound(s, [PutOne(cp)] + BindEach(names, cp), it.Marker(), st.startMarker, cp);
  }

  lemma CheckpointMarks(s: Tier, st: SessionState, it: Item, title: string)
    requires !it.env.event.IsContent() && WriteCheckpoint(st, it, title).failure.None?
    ensures MarkersPoint(s, WriteCheckpoint(st, it, title), st, it)
  {
    if st.head.Some? {
      var cp := Cid(At(it.clock), Checkpoint(title, st.head.value, st.lastCheckpoint));
      NamesMark(s, st, it, cp, ScopedNames(it.env, title));
    }
  }

  /** Every record is marked: in a clean run over new events, the marker of a session's start resolves to the first
      record after it as soon as there is one, and a checkpoint's to the checkpoint. */
  lemma RecordsAreMarked(s: Tier, items: seq<Item>, i: nat)
    requires AllNew(s, items) && i < |items|
    ensures var w, it := Run(Start(s), items[..i]), items[i];
            && Run(Start(s), items[..i + 1]) == Step(w, it)
            && MarkersPoint(w.store, Effect(w, it), StateOf(w, it.Session()), it)
    ensures items[i].env.event.SessionStarted? ==>
              StateOf(Run(Start(s), items[..i + 1]), items[i].Session()).startMarker == Some(items[i].Marker())
  {
    Filing.Meets(s, items, 0, i);
    var w, it := Run(Start(s), items[..i]), items[i];
    ProcessMarks(w.store, See(StateOf(w, it.Session()), it), it);
  }

  lemma ProcessMarks(s: Tier, st: SessionState, it: Item)
    requires Process(st, it).failure.None?
    ensures MarkersPoint(s, Process(st, it), st, it)
  {
    match it.env.event
    case SessionStarted(_) =>
    case ToolCallStarted(_, _) =>
    case CheckpointRequested(title) => CheckpointMarks(s, st, it, OrElse(title, "checkpoint"));
    case SessionEnded => CheckpointMarks(s, st, it, "session-ended");
    case FileRead(_) => FileMarks(s, st, it);
    case FileWritten(_) => FileMarks(s, st, it);
    case ToolCallFinished(tool, _, _) => NodeMarks(s, PopArgs(st, tool), it, ContentNode(it, OldestArgs(st, tool)));
    case _ => NodeMarks(s, st, it, ContentNode(it, ""));
  }

  /** Two events have one marker exactly when they are of one session and differ in their import provenance at most. */
  lemma MarkersAgreeExactlyWhen(a: Item, b: Item)
    ensures a.Marker() == b.Marker() <==> a.env.(importedFrom := None) == b.env.(importedFrom := None)
  {
    if a.env.(importedFrom := None) == b.env.(importedFrom := None) {
      assert a.env.(importedFrom := None).hostId == b.env.(importedFrom := None).hostId;
      assert a.env.(importedFrom := None).sessionId == b.env.(importedFrom := None).sessionId;
    }
  }

  // ---- what the report says of refusals and files --------------------------------------------------------------

  /** The line was skipped because of a call that was refused, or a file that could not be read. */
  predicate SkippedFor(skip: Skip, it: Item) {
    && skip.line == it.line
    && (skip.call in it.faults || (skip.call == ReadFile && it.env.event.IsFile() && it.disk.None?))
  }

  lemma CheckpointFailures(st: SessionState, it: Item, cp: Cid, names: seq<Name>)
    ensures var o := BindCheckpoint(st, it, cp, names); o.failure.Some? ==> o.failure.value in it.faults
  {
  }

  lemma FailuresAreRefusals(known: bool, st: SessionState, it: Item)
    ensures var o := Handle(known, st, it); o.failure.Some? ==> SkippedFor(Skip(it.line, o.failure.value), it)
  {
    var seen := See(st, it);
    if seen.head.Some? && CheckpointTitle(it.env.event).Some? {
      var title := CheckpointTitle(it.env.event).value;
      var cp := Cid(At(it.clock), Checkpoint(title, seen.head.value, seen.lastCheckpoint));
      CheckpointFailures(seen, it, cp, ScopedNames(it.env, title));
    }
  }

  predicate SkipsStand(skipped: seq<Skip>, items: seq<Item>, at: seq<nat>) {
    && |at| == |skipped| && (forall j, k :: 0 <= j < k < |at| ==> at[j] < at[k])
    && forall k :: 0 <= k < |at| ==> at[k] < |items| && SkippedFor(skipped[k], items[at[k]])
  }

  lemma OneMoreSkip(skipped: seq<Skip>, items: seq<Item>, at: seq<nat>, it: Item, skip: Skip)
    requires SkipsStand(skipped, items, at) && SkippedFor(skip, it)
    ensures SkipsStand(skipped + [skip], items + [it], at + [|items|])
    ensures SkipsStand(skipped, items + [it], at)
  {
  }

  lemma NoMoreSkips(skipped: seq<Skip>, items: seq<Item>, at: seq<nat>, it: Item)
    requires SkipsStand(skipped, items, at)
    ensures SkipsStand(skipped, items + [it], at)
  {
  }

  /** Every skip is true: the report names, in order, lines whose event met with the refusal it gives. */
  lemma {:induction false} SkipsAreTrue(s: Tier, items: seq<Item>) returns (at: seq<nat>)
    ensures SkipsStand(Run(Start(s), items).report.skipped, items, at)
  {
    at := [];
    if items != [] {
      var before, it := items[..|items| - 1], items[|items| - 1];
      var w := Run(Start(s), before);
      var known, st := Known(w.store, it), StateOf(w, it.Session());
      at := SkipsAreTrue(s, before);
      SplitLast(items);
      FailuresAreRefusals(known, st, it);
      if Handle(known, st, it).failure.Some? {
        OneMoreSkip(w.report.skipped, before, at, it, Skip(it.line, Handle(known, st, it).failure.value));
        at := at + [|before|];
      } else {
        NoMoreSkips(w.report.skipped, before, at, it);
      }
    }
  }

  /** The files the records refer to. */
  function FilesOf(records: seq<Cid>): seq<Cid> {
    if records == [] then []
    else
      var last := records[|records| - 1];
      FilesOf(records[..|records| - 1]) + if last.node.FileRef? then [last.node.content] else []
  }

  lemma HandledFiles(known: bool, st: SessionState, it: Item)
    requires Handle(known, st, it).failure.None?
    ensures |Handle(known, st, it).records| <= 1
    ensures Handle(known, st, it).blobs == FilesOf(Handle(known, st, it).records)
  {
    if !Repeated(st, it) && !known {
      ProcessAdds(See(st, it), it);
    }
  }

  lemma FilesOfMore(records: seq<Cid>, more: seq<Cid>)
    requires |more| <= 1
    ensures FilesOf(records + more) == FilesOf(records) + FilesOf(more)
  {
    if more == [] {
      NothingMore(records);
      NothingMore(FilesOf(records));
    } else {
      assert (records + more)[..|records|] == records && more[..0] == [];
    }
  }

  /** In a clean run the files reported as written are those the records refer to. */
  lemma {:induction false} FilesAreReported(s: Tier, items: seq<Item>)
    requires Replay.Clean(s, items)
    ensures Run(Start(s), items).report.blobsWritten == FilesOf(Run(Start(s), items).report.recordCids)
  {
    if items != [] {
      var before, it := items[..|items| - 1], items[|items| - 1];
      var w := Run(Start(s), before);
      FilesAreReported(s, before);
      HandledFiles(Known(w.store, it), StateOf(w, it.Session()), it);
      FilesOfMore(w.report.recordCids, Effect(w, it).records);
    }
  }
}
