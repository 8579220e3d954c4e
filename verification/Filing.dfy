/** What a clean ingest files for the events of a transcript, whether it is read in one go or again and again while it
    grows. */
module Filing {
  import opened Basics
  import opened Events
  import opened Store
  import opened Ingest
  import opened Pairing
  import Replay

  /** The events the items bring. */
  function Envs(items: seq<Item>): (envs: seq<Envelope>)
    ensures |envs| == |items| && forall i :: 0 <= i < |envs| ==> envs[i] == items[i].env
  {
    seq(|items|, i requires 0 <= i < |items| => items[i].env)
  }

  // ---- a run over a store that knows the first `n` -------------------------------------------------------

  ghost predicate DistinctKeys(t: seq<Item>) {
    forall i, j :: 0 <= i < j < |t| ==> t[i].Key() != t[j].Key()
  }

  /** The store knows the content before position `n`, under its dates, and nothing else of the transcript. */
  ghost predicate KnownUpTo(s: Tier, t: seq<Item>, n: nat) {
    forall j, date :: 0 <= j < |t| ==>
      (DayContains(s, date, t[j].Key()) <==> j < n && t[j].env.event.IsContent() && date == t[j].Date())
  }

  /** Every event is met for the first time, and known exactly when it was known before. */
  lemma MeetsOnce(s: Tier, t: seq<Item>, i: nat)
    requires Replay.Clean(s, t) && DistinctKeys(t) && i < |t|
    ensures var w := Run(Start(s), t[..i]); var it := t[i];
            && !Repeated(StateOf(w, it.Session()), it)
            && (Known(w.store, it) <==> Known(s, it))
            && Effect(w, it).failure.None?
            && Run(Start(s), t[..i + 1]) == Step(w, it)
  {
    NextIsClean(s, t, i);
    KeyIsNew(t, i);
    Replay.RunMeets(s, t[..i], t[i].Session());
    Replay.RunFiles(s, t[..i], t[i].Date(), t[i].Key());
  }

  lemma NextIsClean(s: Tier, t: seq<Item>, i: nat)
    requires Replay.Clean(s, t) && i < |t|
    ensures Replay.Clean(s, t[..i])
    ensures var w := Run(Start(s), t[..i]); Effect(w, t[i]).failure.None? && Run(Start(s), t[..i + 1]) == Step(w, t[i])
  {
    PrefixOfPrefix(t, i + 1, i);
    Replay.CleanUpTo(s, t, i + 1);
    Replay.CleanPrefix(s, t[..i + 1]);
  }

  lemma KeyIsNew(t: seq<Item>, i: nat)
    requires DistinctKeys(t) && i < |t|
    ensures t[i].Key() !in Replay.KeysMet(t[..i], t[i].Session())
    ensures !Replay.Brings(t[..i], t[i].Date(), t[i].Key())
  {
    assert forall j :: 0 <= j < i ==> t[..i][j] == t[j];
  }

  lemma Meets(s: Tier, t: seq<Item>, n: nat, i: nat)
    requires Replay.Clean(s, t) && DistinctKeys(t) && KnownUpTo(s, t, n) && i < |t|
    ensures var w := Run(Start(s), t[..i]); var it := t[i];
            && !Repeated(StateOf(w, it.Session()), it)
            && (Known(w.store, it) <==> i < n && it.env.event.IsContent())
            && Effect(w, it).failure.None?
            && Run(Start(s), t[..i + 1]) == Step(w, it)
  {
    MeetsOnce(s, t, i);
    assert Known(s, t[i]) <==> DayContains(s, t[i].Date(), t[i].Key());
  }

  lemma WritingKeepsQueues(st: SessionState, it: Item, node: Node, title: string)
    ensures WriteNode(st, it, node).state.pendingArgs == st.pendingArgs
    ensures it.env.event.IsFile() ==> WriteFile(st, it).state.pendingArgs == st.pendingArgs
    ensures WriteCheckpoint(st, it, title).state.pendingArgs == st.pendingArgs
  {
  }

  lemma ProcessMovesQueue(st: SessionState, it: Item, tool: string)
    ensures Queue(Process(st, it).state, tool) == QueueAfter(Queue(st, tool), it.env, it.Session(), tool, true)
  {
    match it.env.event
    case SessionStarted(_) =>
    case ToolCallStarted(_, _) =>
    case ToolCallFinished(name, _, _) =>
      WritingKeepsQueues(PopArgs(st, name), it, ContentNode(it, OldestArgs(st, name)), "");
    case FileRead(_) => WritingKeepsQueues(st, it, Memory("", ""), "");
    case FileWritten(_) => WritingKeepsQueues(st, it, Memory("", ""), "");
    case CheckpointRequested(title) => WritingKeepsQueues(st, it, Memory("", ""), OrElse(title, "checkpoint"));
    case SessionEnded => WritingKeepsQueues(st, it, Memory("", ""), "session-ended");
    case _ => WritingKeepsQueues(st, it, ContentNode(it, ""), "");
  }

  lemma HandleMovesQueue(known: bool, st: SessionState, it: Item, tool: string)
    requires !Repeated(st, it) && Handle(known, st, it).failure.None?
    requires known ==> it.env.event.IsContent()
    ensures Queue(Handle(known, st, it).state, tool) == QueueAfter(Queue(st, tool), it.env, it.Session(), tool, !known)
  {
    assert Queue(See(st, it), tool) == Queue(st, tool);
    if !known {
      ProcessMovesQueue(See(st, it), it, tool);
    }
  }

  ghost predicate QueueIs(s: Tier, t: seq<Item>, n: nat, i: nat, sid: SessionKey, tool: string)
    requires i <= |t|
  {
    Queue(StateOf(Run(Start(s), t[..i]), sid), tool) == Backlog([], Envs(t)[..i], sid, tool, n)
  }

  /** The queue holds what waits in the transcript when the results before `n` do not count. */
  lemma {:induction false} QueueIsBacklog(s: Tier, t: seq<Item>, n: nat, i: nat, sid: SessionKey, tool: string)
    requires Replay.Clean(s, t) && DistinctKeys(t) && KnownUpTo(s, t, n) && i <= |t|
    ensures QueueIs(s, t, n, i, sid, tool)
  {
    if i == 0 {
      assert t[..0] == [] && Envs(t)[..0] == [];
    } else {
      QueueIsBacklog(s, t, n, i - 1, sid, tool);
      NextQueueIs(s, t, n, i - 1, sid, tool);
    }
  }

  lemma NextQueueIs(s: Tier, t: seq<Item>, n: nat, i: nat, sid: SessionKey, tool: string)
    requires Replay.Clean(s, t) && DistinctKeys(t) && KnownUpTo(s, t, n) && i < |t| && QueueIs(s, t, n, i, sid, tool)
    ensures QueueIs(s, t, n, i + 1, sid, tool)
  {
    NextMovesQueue(s, t, n, i, sid, tool);
    NextBacklog(Envs(t), i, sid, tool, n);
  }

  lemma NextBacklog(envs: seq<Envelope>, i: nat, sid: SessionKey, tool: string, n: nat)
    requires i < |envs|
    ensures Backlog([], envs[..i + 1], sid, tool, n)
            == QueueAfter(Backlog([], envs[..i], sid, tool, n), envs[i], sid, tool, i >= n)
  {
    PrefixSnoc(envs, i);
    BacklogSnoc([], envs[..i], envs[i], sid, tool, n);
  }

  lemma NextMovesQueue(s: Tier, t: seq<Item>, n: nat, i: nat, sid: SessionKey, tool: string)
    requires Replay.Clean(s, t) && DistinctKeys(t) && KnownUpTo(s, t, n) && i < |t|
    ensures Queue(StateOf(Run(Start(s), t[..i + 1]), sid), tool)
            == QueueAfter(Queue(StateOf(Run(Start(s), t[..i]), sid), tool), t[i].env, sid, tool, i >= n)
  {
    Meets(s, t, n, i);
    StepMovesQueue(Run(Start(s), t[..i]), t[i], sid, tool, i >= n);
  }

  lemma StepMovesQueue(w: World, it: Item, sid: SessionKey, tool: string, counts: bool)
    requires !Repeated(StateOf(w, it.Session()), it) && Effect(w, it).failure.None?
    requires Known(w.store, it) <==> !counts && it.env.event.IsContent()
    ensures Queue(StateOf(Step(w, it), sid), tool)
            == QueueAfter(Queue(StateOf(w, sid), tool), it.env, sid, tool, counts)
  {
    if it.Session() == sid {
      HandleMovesQueue(Known(w.store, it), StateOf(w, sid), it, tool);
    }
  }

  // ---- what content is filed as --------------------------------------------------------------------------

  function NodeAt(s: Tier, it: Item): Option<Node> {
    match FiledRecord(s, it.Date(), it.Key())
    case Some(c) => Some(c.node)
    case None => None
  }

  predicate Readable(it: Item) {
    it.env.event.IsFile() ==> it.disk.Some?
  }

  lemma NodeIsFiled(s: Tier, st: SessionState, it: Item, node: Node)
    requires WriteNode(st, it, node).failure.None?
    ensures NodeAt(Apply(s, WriteNode(st, it, node).writes), it) == Some(node)
  {
    var cid := Cid(At(it.clock), node);
    var ws := [PutOne(cid), FileOne(it.Date(), it.Key(), cid, it.clock)];
    ApplyPair(s, ws[0], ws[1]);
    if st.startMarker.Some? {
      ApplySnoc(s, ws, BindOne(st.startMarker.value, cid));
    }
  }

  lemma FileIsFiled(s: Tier, st: SessionState, it: Item)
    requires it.env.event.IsFile() && WriteFile(st, it).failure.None?
    ensures Readable(it) && NodeAt(Apply(s, WriteFile(st, it).writes), it) == Some(ContentNode(it, ""))
  {
    var o := WriteNode(st, it, ContentNode(it, ""));
    ApplyCons(s, PutOne(BlobCid(it)), o.writes);
    NodeIsFiled(Put(s, BlobCid(it)), st, it, ContentNode(it, ""));
  }

  /** Content that is handled is filed as its node, a result with the oldest arguments waiting. */
  lemma ContentIsFiled(w: World, it: Item)
    requires it.env.event.IsContent() && !Repeated(StateOf(w, it.Session()), it) && !Known(w.store, it)
    requires Effect(w, it).failure.None?
    ensures Readable(it)
    ensures NodeAt(Step(w, it).store, it)
            == Some(ContentNode(it, if it.env.event.ToolCallFinished?
                                    then OldestArgs(StateOf(w, it.Session()), it.env.event.tool) else ""))
  {
    var st := See(StateOf(w, it.Session()), it);
    match it.env.event
    case ToolCallFinished(tool, _, _) =>
      NodeIsFiled(w.store, PopArgs(st, tool), it, ContentNode(it, OldestArgs(st, tool)));
    case FileRead(_) => FileIsFiled(w.store, st, it);
    case FileWritten(_) => FileIsFiled(w.store, st, it);
    case UserPrompt(_) => NodeIsFiled(w.store, st, it, ContentNode(it, ""));
    case ModelResponse(_) => NodeIsFiled(w.store, st, it, ContentNode(it, ""));
    case DecisionRecorded(_) => NodeIsFiled(w.store, st, it, ContentNode(it, ""));
    case MemoryRecorded(_) => NodeIsFiled(w.store, st, it, ContentNode(it, ""));
    case _ =>
  }

  /** An event leaves the records of other keys alone. */
  lemma OtherRecordsStay(w: World, it: Item, other: Item)
    requires it.Key() != other.Key()
    ensures NodeAt(Step(w, it).store, other) == NodeAt(w.store, other)
  {
    HandleWrites(Known(w.store, it), StateOf(w, it.Session()), it);
    ApplyFiles(w.store, Effect(w, it).writes, other.Date(), other.Key());
  }

  function NodeAfter(s: Tier, t: seq<Item>, m: nat, i: nat): Option<Node>
    requires m <= |t| && i < |t|
  {
    NodeAt(Run(Start(s), t[..m]).store, t[i])
  }

  lemma FiledNodesStay(s: Tier, t: seq<Item>, i: nat, m: nat)
    requires DistinctKeys(t) && i < m <= |t|
    ensures NodeAfter(s, t, m, i) == NodeAfter(s, t, i + 1, i)
  {
    forall j: nat | i < j < m ensures NodeAfter(s, t, j + 1, i) == NodeAfter(s, t, j, i) {
      NextLeavesOthers(s, t, j, i);
    }
    NodeUnchanged(s, t, i, i + 1, m);
  }

  lemma NodeUnchanged(s: Tier, t: seq<Item>, i: nat, a: nat, m: nat)
    requires a <= m <= |t| && i < |t|
    requires forall j: nat :: a <= j < m ==> NodeAfter(s, t, j + 1, i) == NodeAfter(s, t, j, i)
    ensures NodeAfter(s, t, m, i) == NodeAfter(s, t, a, i)
  {
    Unchanging((j: nat) => if j <= |t| then NodeAfter(s, t, j, i) else None, a, m);
  }

  lemma NextIsFiled(s: Tier, t: seq<Item>, n: nat, i: nat)
    requires Replay.Clean(s, t) && DistinctKeys(t) && KnownUpTo(s, t, n)
    requires n <= i < |t| && t[i].env.event.IsContent()
    ensures Readable(t[i])
    ensures NodeAfter(s, t, i + 1, i) == Some(ContentNode(t[i], InputIn(Envs(t), i, n)))
  {
    var w := Run(Start(s), t[..i]);
    Meets(s, t, n, i);
    ContentIsFiled(w, t[i]);
    if t[i].env.event.ToolCallFinished? {
      var sid, tool := t[i].Session(), t[i].env.event.tool;
      QueueIsBacklog(s, t, n, i, sid, tool);
    }
  }

  /** In a clean run over a store that knows the content before position `n`, all later content is filed as its node,
      and a result with the arguments the transcript gives it when the results before `n` do not count. */
  lemma NodesAreFiled(s: Tier, t: seq<Item>, n: nat, i: nat, m: nat)
    requires Replay.Clean(s, t) && DistinctKeys(t) && KnownUpTo(s, t, n)
    requires n <= i < m <= |t| && t[i].env.event.IsContent()
    ensures Readable(t[i])
    ensures NodeAfter(s, t, m, i) == Some(ContentNode(t[i], InputIn(Envs(t), i, n)))
  {
    NextIsFiled(s, t, n, i);
    FiledNodesStay(s, t, i, m);
  }

  lemma NextLeavesOthers(s: Tier, t: seq<Item>, m: nat, i: nat)
    requires DistinctKeys(t) && i < m < |t|
    ensures NodeAfter(s, t, m + 1, i) == NodeAfter(s, t, m, i)
  {
    NextRun(s, t, m);
    OtherRecordsStay(Run(Start(s), t[..m]), t[m], t[i]);
  }

  lemma NextRun(s: Tier, t: seq<Item>, m: nat)
    requires m < |t|
    ensures Run(Start(s), t[..m + 1]) == Step(Run(Start(s), t[..m]), t[m])
  {
    PrefixOfPrefix(t, m + 1, m);
  }

  /** Other content than a result is filed as its node by any clean ingest that is the first to bring it. */
  lemma NewContentIsFiled(s: Tier, t: seq<Item>, i: nat)
    requires Replay.Clean(s, t) && DistinctKeys(t) && i < |t| && !Known(s, t[i])
    requires t[i].env.event.IsContent() && !t[i].env.event.ToolCallFinished?
    ensures Readable(t[i])
    ensures Known(IngestAll(s, t).store, t[i]) && NodeAt(IngestAll(s, t).store, t[i]) == Some(ContentNode(t[i], ""))
  {
    MeetsOnce(s, t, i);
    ContentIsFiled(Run(Start(s), t[..i]), t[i]);
    FiledNodesStay(s, t, i, |t|);
    assert t[..|t|] == t;
    RollUpKeepsNodes(Run(Start(s), t).store, t[i]);
  }

  // ---- readings of a growing transcript ----------------------------------------------------------------

  /** The transcript is read as it grows, each time up to where it then ends, and closed in whatever way. */
  predicate AreReadings(streams: seq<seq<Item>>, t: seq<Item>, cuts: seq<nat>) {
    && |streams| == |cuts|
    && (forall k :: 0 <= k < |cuts| ==> Replay.ReadsUpTo(streams[k], t, cuts[k]))
    && forall j, k :: 0 <= j < k < |cuts| ==> cuts[j] <= cuts[k]
  }

  /** How much of it has been read before reading `k`. */
  function ReadBefore(cuts: seq<nat>, k: nat): nat
    requires k <= |cuts|
  {
    if k == 0 then 0 else cuts[k - 1]
  }

  lemma SameAt(u: seq<Item>, t: seq<Item>, m: nat, i: nat)
    requires Replay.ReadsUpTo(u, t, m) && i < m
    ensures u[i].env == t[i].env && (t[i].env.event.IsContent() ==> u[i].Date() == t[i].Date())
  {
    assert u[..m][i] == u[i] && t[..m][i] == t[i];
  }

  lemma FirstWhereRead(u: seq<Item>, t: seq<Item>, m: nat, i: nat)
    requires DistinctKeys(t) && Replay.ReadsUpTo(u, t, m) && i < m
    ensures Replay.First(u, i)
  {
    SameAt(u, t, m, i);
    forall l | 0 <= l < i ensures u[..i][l].Key() != u[i].Key() {
      SameAt(u, t, m, l);
    }
  }

  lemma DistinctBring(u: seq<Item>, t: seq<Item>, m: nat, j: nat, date: string)
    requires DistinctKeys(t) && Replay.ReadsUpTo(u, t, m) && j < |t|
    ensures Replay.Brings(u, date, t[j].Key()) <==> j < m && t[j].env.event.IsContent() && date == t[j].Date()
  {
    if j < m {
      FirstWhereRead(u, t, m, j);
      SameAt(u, t, m, j);
    }
    forall i | 0 <= i < m ensures u[i].env == t[i].env && (t[i].env.event.IsContent() ==> u[i].Date() == t[i].Date()) {
      SameAt(u, t, m, i);
    }
  }

  lemma NextPass(s: Tier, streams: seq<seq<Item>>, k: nat)
    requires k < |streams|
    ensures Replay.Passes(s, streams[..k + 1]) == IngestAll(Replay.Passes(s, streams[..k]), streams[k]).store
  {
    PrefixOfPrefix(streams, k + 1, k);
  }

  /** One more reading, and the store knows the content of all it has read. */
  lemma OneMoreReading(s: Tier, t: seq<Item>, n: nat, u: seq<Item>, m: nat)
    requires DistinctKeys(t) && KnownUpTo(s, t, n) && n <= m && Replay.ReadsUpTo(u, t, m)
    requires Replay.Clean(s, u)
    ensures KnownUpTo(IngestAll(s, u).store, t, m)
  {
    forall j, date | 0 <= j < |t|
      ensures DayContains(IngestAll(s, u).store, date, t[j].Key())
              <==> j < m && t[j].env.event.IsContent() && date == t[j].Date()
    {
      Replay.IngestFiles(s, u, date, t[j].Key());
      DistinctBring(u, t, m, j, date);
    }
  }

  /** After `k` readings the store knows the content of what they have read, and nothing else of the transcript. */
  ghost predicate KnownAfter(s: Tier, t: seq<Item>, cuts: seq<nat>, streams: seq<seq<Item>>, k: nat)
    requires k <= |cuts| && |streams| == |cuts|
  {
    KnownUpTo(Replay.Passes(s, streams[..k]), t, ReadBefore(cuts, k))
  }

  lemma {:induction false} ReadingsAreKnown(s: Tier, t: seq<Item>, cuts: seq<nat>, streams: seq<seq<Item>>, k: nat)
    requires DistinctKeys(t) && KnownUpTo(s, t, 0) && AreReadings(streams, t, cuts) && Replay.CleanPasses(s, streams)
    requires k <= |cuts|
    ensures KnownAfter(s, t, cuts, streams, k)
  {
    if k == 0 {
      assert streams[..0] == [];
    } else {
      ReadingsAreKnown(s, t, cuts, streams, k - 1);
      NextReadingIsKnown(s, t, cuts, streams, k - 1);
    }
  }

  lemma NextReadingIsKnown(s: Tier, t: seq<Item>, cuts: seq<nat>, streams: seq<seq<Item>>, k: nat)
    requires DistinctKeys(t) && AreReadings(streams, t, cuts) && Replay.CleanPasses(s, streams)
    requires k < |cuts| && KnownAfter(s, t, cuts, streams, k)
    ensures KnownAfter(s, t, cuts, streams, k + 1)
  {
    NextPass(s, streams, k);
    OneMoreReading(Replay.Passes(s, streams[..k]), t, ReadBefore(cuts, k), streams[k], cuts[k]);
  }

  lemma RollUpKeepsNodes(s: Tier, it: Item)
    ensures NodeAt(RollUp(s), it) == NodeAt(s, it)
  {
  }

  lemma KnownNodesStay(s: Tier, items: seq<Item>, it: Item)
    requires Known(s, it)
    ensures Known(IngestAll(s, items).store, it) && NodeAt(IngestAll(s, items).store, it) == NodeAt(s, it)
  {
    Replay.TheFirstRecordStays(s, items, it.Date(), it.Key());
    Replay.RunFiles(s, items, it.Date(), it.Key());
    RollUpKeepsNodes(Run(Start(s), items).store, it);
  }

  ghost function NodeRead(s: Tier, streams: seq<seq<Item>>, k: nat, it: Item): Option<Node>
    requires k <= |streams|
  {
    NodeAt(Replay.Passes(s, streams[..k]), it)
  }

  ghost predicate KnownThen(s: Tier, streams: seq<seq<Item>>, k: nat, it: Item)
    requires k <= |streams|
  {
    Known(Replay.Passes(s, streams[..k]), it)
  }

  lemma NextPassKeeps(s: Tier, streams: seq<seq<Item>>, k: nat, it: Item)
    requires k < |streams| && KnownThen(s, streams, k, it)
    ensures KnownThen(s, streams, k + 1, it) && NodeRead(s, streams, k + 1, it) == NodeRead(s, streams, k, it)
  {
    NextPass(s, streams, k);
    KnownNodesStay(Replay.Passes(s, streams[..k]), streams[k], it);
  }

  /** What is known after some of the passes keeps its node. */
  lemma {:induction false} KnownNodesLast(s: Tier, streams: seq<seq<Item>>, k: nat, it: Item)
    requires k <= |streams| && KnownThen(s, streams, k, it)
    ensures NodeAt(Replay.Passes(s, streams), it) == NodeRead(s, streams, k, it)
    decreases |streams| - k
  {
    if k == |streams| {
      assert streams[..k] == streams;
    } else {
      NextPassKeeps(s, streams, k, it);
      KnownNodesLast(s, streams, k + 1, it);
    }
  }

  /** What a reading has filed stays. */
  lemma ReadNodesStay(s: Tier, t: seq<Item>, cuts: seq<nat>, streams: seq<seq<Item>>, k: nat, i: nat)
    requires DistinctKeys(t) && KnownUpTo(s, t, 0) && AreReadings(streams, t, cuts) && Replay.CleanPasses(s, streams)
    requires k < |cuts| && i < cuts[k] && t[i].env.event.IsContent()
    ensures NodeAt(Replay.Passes(s, streams), t[i]) == NodeRead(s, streams, k + 1, t[i])
  {
    ReadingsAreKnown(s, t, cuts, streams, k + 1);
    KnownNodesLast(s, streams, k + 1, t[i]);
  }

  lemma KnownAsRead(s: Tier, t: seq<Item>, u: seq<Item>, n: nat)
    requires DistinctKeys(t) && KnownUpTo(s, t, n) && Replay.ReadsUpTo(u, t, |u|)
    ensures DistinctKeys(u) && KnownUpTo(s, u, n)
  {
    forall i | 0 <= i < |u| ensures u[i].env == t[i].env { SameAt(u, t, |u|, i); }
    forall j, date | 0 <= j < |u|
      ensures DayContains(s, date, u[j].Key()) <==> j < n && u[j].env.event.IsContent() && date == u[j].Date()
    {
      SameAt(u, t, |u|, j);
      assert DayContains(s, date, t[j].Key()) <==> j < n && t[j].env.event.IsContent() && date == t[j].Date();
    }
  }

  lemma InputAsRead(t: seq<Item>, u: seq<Item>, m: nat, i: nat, n: nat)
    requires Replay.ReadsUpTo(u, t, m) && i < m
    ensures u[i].env == t[i].env && InputIn(Envs(u), i, n) == InputIn(Envs(t), i, n)
  {
    forall j | 0 <= j <= i ensures Envs(u)[j] == Envs(t)[j] {
      SameAt(u, t, m, j);
    }
    assert Envs(u)[..i] == Envs(t)[..i];
  }

  lemma NodeOfSameEvent(s: Tier, it: Item, again: Item)
    requires it.env == again.env && it.Date() == again.Date()
    ensures NodeAt(s, it) == NodeAt(s, again)
  {
  }

  /** Events that are no content leave every record alone. */
  lemma ClosingFilesNothing(w: World, it: Item, other: Item)
    requires !it.env.event.IsContent()
    ensures NodeAt(Step(w, it).store, other) == NodeAt(w.store, other)
  {
    HandleWrites(Known(w.store, it), StateOf(w, it.Session()), it);
    ApplyFiles(w.store, Effect(w, it).writes, other.Date(), other.Key());
  }

  lemma NodesOutlastClosing(s: Tier, u: seq<Item>, i: nat, m: nat)
    requires i < m <= |u| && forall j :: m <= j < |u| ==> !u[j].env.event.IsContent()
    ensures NodeAfter(s, u, |u|, i) == NodeAfter(s, u, m, i)
  {
    forall j: nat | m <= j < |u| ensures NodeAfter(s, u, j + 1, i) == NodeAfter(s, u, j, i) {
      PrefixOfPrefix(u, j + 1, j);
      ClosingFilesNothing(Run(Start(s), u[..j]), u[j], u[i]);
    }
    NodeUnchanged(s, u, i, m, |u|);
  }

  lemma FirstPartReads(u: seq<Item>, t: seq<Item>, m: nat)
    requires Replay.ReadsUpTo(u, t, m)
    ensures Replay.ReadsUpTo(u[..m], t, m)
  {
    PrefixOfPrefix(u, m, m);
  }

  /** One reading files what is new to it, results with what is given when those known before do not count. */
  lemma ReadingFiles(s: Tier, t: seq<Item>, u: seq<Item>, m: nat, n: nat, i: nat)
    requires DistinctKeys(t) && KnownUpTo(s, t, n) && n <= i < m && Replay.ReadsUpTo(u, t, m)
    requires Replay.Clean(s, u) && t[i].env.event.IsContent()
    ensures u[i].env == t[i].env && Readable(u[i])
    ensures NodeAt(IngestAll(s, u).store, t[i]) == Some(ContentNode(u[i], InputIn(Envs(t), i, n)))
  {
    var read := u[..m];
    InputAsRead(t, u, m, i, n);
    SameAt(u, t, m, i);
    FirstPartReads(u, t, m);
    InputAsRead(t, read, m, i, n);
    KnownAsRead(s, t, read, n);
    Replay.CleanUpTo(s, u, m);
    NodesAreFiled(s, read, n, i, m);
    assert read[..m] == read && u[..|u|] == u;
    NodesOutlastClosing(s, u, i, m);
    RollUpKeepsNodes(Run(Start(s), u).store, u[i]);
    NodeOfSameEvent(IngestAll(s, u).store, u[i], t[i]);
  }

  lemma ReadingNext(s: Tier, t: seq<Item>, cuts: seq<nat>, streams: seq<seq<Item>>, k: nat, i: nat)
    requires DistinctKeys(t) && KnownUpTo(s, t, 0) && AreReadings(streams, t, cuts) && Replay.CleanPasses(s, streams)
    requires k < |cuts| && ReadBefore(cuts, k) <= i < cuts[k] && t[i].env.event.IsContent()
    ensures streams[k][i].env == t[i].env && Readable(streams[k][i])
    ensures NodeRead(s, streams, k + 1, t[i])
            == Some(ContentNode(streams[k][i], InputIn(Envs(t), i, ReadBefore(cuts, k))))
  {
    ReadingsAreKnown(s, t, cuts, streams, k);
    NextPass(s, streams, k);
    ReadingFiles(Replay.Passes(s, streams[..k]), t, streams[k], cuts[k], ReadBefore(cuts, k), i);
  }

  /** However often a transcript is read while it grows, content stays filed as what reading `k` made of it when it
      read it first, a result with the arguments the transcript gives it when the results read before do not count. */
  lemma ReadingsFile(s: Tier, t: seq<Item>, cuts: seq<nat>, streams: seq<seq<Item>>, k: nat, i: nat)
    requires DistinctKeys(t) && KnownUpTo(s, t, 0) && AreReadings(streams, t, cuts) && Replay.CleanPasses(s, streams)
    requires k < |cuts| && ReadBefore(cuts, k) <= i < cuts[k] && t[i].env.event.IsContent()
    ensures streams[k][i].env == t[i].env && Readable(streams[k][i])
    ensures NodeAt(Replay.Passes(s, streams), t[i])
            == Some(ContentNode(streams[k][i], InputIn(Envs(t), i, ReadBefore(cuts, k))))
  {
    ReadingNext(s, t, cuts, streams, k, i);
    ReadNodesStay(s, t, cuts, streams, k, i);
  }

  /** Read in one go, everything counts. */
  lemma InOneGo(s: Tier, t: seq<Item>, i: nat)
    requires DistinctKeys(t) && KnownUpTo(s, t, 0) && i < |t| && Replay.Clean(s, t) && t[i].env.event.IsContent()
    ensures Readable(t[i])
    ensures NodeAt(IngestAll(s, t).store, t[i]) == Some(ContentNode(t[i], InputIn(Envs(t), i, 0)))
  {
    ReadingFiles(s, t, t, |t|, 0, i);
  }
}
