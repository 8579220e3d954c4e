/** The ingest state machine (crates/adapter-jsonl/src/lib.rs): what one envelope does to the store, to
    its session's running state and to the report. */
module Ingest {
  import opened Basics
  import opened Events
  import opened Store

  /** The calls an envelope may make that can be refused. */
  datatype Call =
    | AskDay | ReadFile | PutBlob | PutNode | RecordDay | BindStart
    | PutCheckpoint | LockCheckpoint | BindScoped(index: nat) | BindMarker
    | RollUpDays

  /** A readable file and the media type its extension suggests. */
  datatype File = File(bytes: Bytes, mediaType: string)

  /** An envelope with its surroundings: the line it came from, the clock, today's date, the file it names
      (if readable) and the calls that will be refused while it is handled. */
  datatype Item = Item(
    line: nat, env: Envelope, clock: nat, today: string, disk: Option<File>, faults: set<Call>)
  {
    function Session(): SessionKey { SessionOf(env) }
    function Key(): EventKey { KeyOf(env) }
    function Date(): string { DateOf(env, today) }
    function Marker(): Name { EventMarker(SessionOf(env), Fingerprint(env)) }
  }

  datatype SessionState = SessionState(
    head: Option<Cid>,
    lastCheckpoint: Option<Cid>,
    pendingArgs: map<string, seq<string>>,
    startMarker: Option<Name>,
    seen: set<EventKey>)

  const FRESH := SessionState(None, None, map[], None, {})

  datatype Skip = Skip(line: nat, call: Call)

  datatype Report = Report(
    events: nat,
    nodesWritten: nat,
    recordCids: seq<Cid>,
    checkpoints: nat,
    namesBound: nat,
    blobsWritten: seq<Cid>,
    skipped: seq<Skip>)

  const EMPTY_REPORT := Report(0, 0, [], 0, 0, [], [])

  // ---- writes --------------------------------------------------------------------------------

  /** One change to the store. */
  datatype Write =
    | PutOne(cid: Cid)
    | BindOne(name: Name, cid: Cid)
    | FileOne(date: string, key: EventKey, record: Cid, clock: nat)

  function Do(s: Tier, w: Write): Tier {
    match w
    case PutOne(cid) => Put(s, cid)
    case BindOne(name, cid) => Bind(s, name, cid)
    case FileOne(date, key, record, clock) => RecordInDay(s, date, key, record, clock)
  }

  function Apply(s: Tier, ws: seq<Write>): Tier {
    if ws == [] then s else Do(Apply(s, ws[..|ws| - 1]), ws[|ws| - 1])
  }

  lemma ApplySnoc(s: Tier, ws: seq<Write>, w: Write)
    ensures Apply(s, ws + [w]) == Do(Apply(s, ws), w)
  {
    assert (ws + [w])[..|ws|] == ws;
  }

  lemma ApplyPair(s: Tier, v: Write, w: Write)
    ensures Apply(s, [v]) == Do(s, v) && Apply(s, [v, w]) == Do(Do(s, v), w)
  {
    assert [v][..0] == [] && [v, w][..1] == [v];
  }

  lemma {:induction false} ApplyCons(s: Tier, w: Write, ws: seq<Write>)
    ensures Apply(s, [w] + ws) == Apply(Do(s, w), ws)
  {
    if ws == [] {
      assert [w] + ws == [] + [w];
      ApplySnoc(s, [], w);
    } else {
      var before := ws[..|ws| - 1];
      ApplyCons(s, w, before);
      assert [w] + ws == [w] + before + [ws[|ws| - 1]];
      ApplySnoc(s, [w] + before, ws[|ws| - 1]);
    }
  }

  /** The effect of one envelope: the writes it makes, the session state it leaves, what it adds to the
      report, and the call that cut it short, if any.  None of it depends on the store but for one bit. */
  datatype Outcome = Outcome(
    writes: seq<Write>,
    state: SessionState,
    records: seq<Cid>,
    nodes: nat,
    checkpoints: nat,
    bound: nat,
    blobs: seq<Cid>,
    failure: Option<Call>)

  function Quiet(st: SessionState): Outcome {
    Outcome([], st, [], 0, 0, 0, [], None)
  }

  function Refused(writes: seq<Write>, st: SessionState, call: Call): Outcome {
    Outcome(writes, st, [], 0, 0, 0, [], Some(call))
  }

  // ---- tool arguments ------------------------------------------------------------------------

  function Queue(st: SessionState, tool: string): seq<string> {
    if tool in st.pendingArgs then st.pendingArgs[tool] else []
  }

  function PushArgs(st: SessionState, tool: string, args: string): SessionState {
    st.(pendingArgs := st.pendingArgs[tool := Queue(st, tool) + [args]])
  }

  function PopArgs(st: SessionState, tool: string): SessionState {
    if Queue(st, tool) == [] then st else st.(pendingArgs := st.pendingArgs[tool := Queue(st, tool)[1..]])
  }

  function OldestArgs(st: SessionState, tool: string): string {
    if Queue(st, tool) == [] then "" else Queue(st, tool)[0]
  }

  // ---- nodes ---------------------------------------------------------------------------------

  function BlobCid(it: Item): Cid
    requires it.disk.Some? && it.env.event.IsFile()
  {
    Cid(At(0), Blob(it.disk.value.bytes, it.disk.value.mediaType))
  }

  /** The node a content event becomes; `input` are the arguments paired with a tool result. */
  function ContentNode(it: Item, input: string): Node
    requires it.env.event.IsContent()
    requires it.env.event.IsFile() ==> it.disk.Some?
  {
    match it.env.event
    case UserPrompt(text) => Prompt(text)
    case ModelResponse(text) => Response(text, "unknown")
    case ToolCallFinished(tool, ok, result) => ToolResult(tool, input, OrElse(result, ""), ok)
    case FileRead(path) => FileRef(path, |it.disk.value.bytes|, BlobCid(it))
    case FileWritten(path) => FileRef(path, |it.disk.value.bytes|, BlobCid(it))
    case DecisionRecorded(text) => Decision("", text, "")
    case MemoryRecorded(text) => Memory(text, "reference")
  }

  /** Write a node, make it the head, file it under its day, and bind a waiting start marker to it. */
  function WriteNode(st: SessionState, it: Item, node: Node): Outcome {
    if PutNode in it.faults then Refused([], st, PutNode)
    else
      var cid := Cid(At(it.clock), node);
      var st1 := st.(head := Some(cid));
      if RecordDay in it.faults then Refused([PutOne(cid)], st1, RecordDay)
      else
        var ws := [PutOne(cid), FileOne(it.Date(), it.Key(), cid, it.clock)];
        match st.startMarker
        case None => Outcome(ws, st1, [cid], 1, 0, 1, [], None)
        case Some(m) =>
          var st2 := st1.(startMarker := None);
          if BindStart in it.faults then Outcome(ws, st2, [], 0, 0, 1, [], Some(BindStart))
          else Outcome(ws + [BindOne(m, cid)], st2, [cid], 1, 0, 2, [], None)
  }

  function WriteFile(st: SessionState, it: Item): Outcome
    requires it.env.event.IsFile()
  {
    if it.disk.None? then Refused([], st, ReadFile)
    else if PutBlob in it.faults then Refused([], st, PutBlob)
    else
      var o := WriteNode(st, it, ContentNode(it, ""));
      o.(writes := [PutOne(BlobCid(it))] + o.writes, blobs := [BlobCid(it)])
  }

  // ---- checkpoints ---------------------------------------------------------------------------

  function ScopedNames(env: Envelope, title: string): seq<Name> {
    [CheckpointName(SessionOf(env), title), SessionLatest(SessionOf(env)), HostLatest(env.hostId)]
    + (match env.projectId case Some(p) => [ProjectLatest(p)] case None => [])
    + [Latest]
  }

  function BindEach(names: seq<Name>, cid: Cid): (ws: seq<Write>)
    ensures |ws| == |names| && forall i :: 0 <= i < |ws| ==> ws[i] == BindOne(names[i], cid)
  {
    seq(|names|, i requires 0 <= i < |names| => BindOne(names[i], cid))
  }

  /** How many scoped names get bound before a refusal, counting from `i`. */
  function BoundUpTo(names: seq<Name>, faults: set<Call>, i: nat): (r: nat)
    requires i <= |names|
    ensures i <= r <= |names|
    ensures r < |names| ==> BindScoped(r) in faults
    ensures forall j :: i <= j < r ==> BindScoped(j) !in faults
    decreases |names| - i
  {
    if i == |names| || BindScoped(i) in faults then i else BoundUpTo(names, faults, i + 1)
  }

  function WriteCheckpoint(st: SessionState, it: Item, title: string): Outcome {
    match st.head
    case None => Quiet(st)
    case Some(head) =>
      var cp := Cid(At(it.clock), Checkpoint(title, head, st.lastCheckpoint));
      if PutCheckpoint in it.faults then Refused([], st, PutCheckpoint)
      else if LockCheckpoint in it.faults then Refused([PutOne(cp)], st, LockCheckpoint)
      else BindCheckpoint(st, it, cp, ScopedNames(it.env, title))
  }

  /** Bind a checkpoint's names in order, then its own marker, then a waiting start marker. */
  function BindCheckpoint(st: SessionState, it: Item, cp: Cid, names: seq<Name>): Outcome {
    var n := BoundUpTo(names, it.faults, 0);
    var ws := [PutOne(cp)] + BindEach(names[..n], cp);
    if n < |names| then Outcome(ws, st, [cp], 0, 1, n, [], Some(BindScoped(n)))
    else if BindMarker in it.faults then Outcome(ws, st, [cp], 0, 1, n, [], Some(BindMarker))
    else
      var ws1 := ws + [BindOne(it.Marker(), cp)];
      var chained := st.(startMarker := None, lastCheckpoint := Some(cp));
      if st.startMarker.None? || st.startMarker == Some(it.Marker()) then
        Outcome(ws1, chained, [cp], 0, 1, n + 1, [], None)
      else if BindStart in it.faults then
        Outcome(ws1, st, [cp], 0, 1, n + 1, [], Some(BindStart))
      else
        Outcome(ws1 + [BindOne(st.startMarker.value, cp)], chained, [cp], 0, 1, n + 2, [], None)
  }

  // ---- one envelope --------------------------------------------------------------------------

  /** An envelope that is neither a repeat in its session nor already filed under its day. */
  function Process(st: SessionState, it: Item): Outcome {
    match it.env.event
    case SessionStarted(_) => Quiet(FRESH.(seen := st.seen, startMarker := Some(it.Marker())))
    case ToolCallStarted(tool, args) => Quiet(PushArgs(st, tool, OrElse(args, "")))
    case ToolCallFinished(tool, _, _) => WriteNode(PopArgs(st, tool), it, ContentNode(it, OldestArgs(st, tool)))
    case FileRead(_) => WriteFile(st, it)
    case FileWritten(_) => WriteFile(st, it)
    case CheckpointRequested(title) => WriteCheckpoint(st, it, OrElse(title, "checkpoint"))
    case SessionEnded => WriteCheckpoint(st, it, "session-ended")
    case _ => WriteNode(st, it, ContentNode(it, ""))
  }

  predicate Repeated(st: SessionState, it: Item) {
    it.Key() in st.seen
  }

  function See(st: SessionState, it: Item): SessionState {
    st.(seen := st.seen + {it.Key()})
  }

  /** `known` says whether the store has the envelope filed under its day. */
  function Handle(known: bool, st: SessionState, it: Item): Outcome {
    if Repeated(st, it) then Quiet(st)
    else if AskDay in it.faults then Refused([], See(st, it), AskDay)
    else if known then Quiet(See(st, it))
    else Process(See(st, it), it)
  }

  // ---- runs ----------------------------------------------------------------------------------

  datatype World = World(store: Tier, sessions: map<SessionKey, SessionState>, report: Report)

  function StateOf(w: World, sid: SessionKey): SessionState {
    if sid in w.sessions then w.sessions[sid] else FRESH
  }

  function Credit(r: Report, o: Outcome): Report {
    r.(nodesWritten := r.nodesWritten + o.nodes, recordCids := r.recordCids + o.records,
       checkpoints := r.checkpoints + o.checkpoints, namesBound := r.namesBound + o.bound,
       blobsWritten := r.blobsWritten + o.blobs)
  }

  predicate Known(s: Tier, it: Item) {
    DayContains(s, it.Date(), it.Key())
  }

  function Effect(w: World, it: Item): Outcome {
    Handle(Known(w.store, it), StateOf(w, it.Session()), it)
  }

  /** The report an envelope adds to; a refused envelope is noted and the stream continues. */
  function Note(r: Report, it: Item, o: Outcome): Report {
    var r1 := Credit(r.(events := r.events + 1), o);
    if o.failure.Some? then r1.(skipped := r1.skipped + [Skip(it.line, o.failure.value)]) else r1
  }

  function Step(w: World, it: Item): World {
    var o := Effect(w, it);
    World(Apply(w.store, o.writes), w.sessions[it.Session() := o.state], Note(w.report, it, o))
  }

  function Run(w: World, items: seq<Item>): World {
    if items == [] then w else Step(Run(w, items[..|items| - 1]), items[|items| - 1])
  }

  /** A run begins with no session state of its own. */
  function Start(s: Tier): World {
    World(s, map[], EMPTY_REPORT)
  }

  /** A whole ingest: the events, then the calendar roll-up. */
  ghost function IngestAll(s: Tier, items: seq<Item>): World {
    var w := Run(Start(s), items);
    w.(store := RollUp(w.store))
  }

  lemma RunSnoc(w: World, items: seq<Item>, it: Item)
    ensures Run(w, items + [it]) == Step(Run(w, items), it)
  {
    assert (items + [it])[..|items|] == items;
  }

  // ---- what an envelope may write --------------------------------------------------------------

  /** The session a name belongs to; host-wide, project-wide and global names belong to none. */
  function ScopeOf(n: Name): Option<SessionKey> {
    match n
    case CheckpointName(sid, _) => Some(sid)
    case SessionLatest(sid) => Some(sid)
    case EventMarker(sid, _) => Some(sid)
    case _ => None
  }

  /** A name of the envelope's own session or host, or of no session or host. */
  predicate MayBind(n: Name, it: Item) {
    ScopeOf(n) in {None, Some(it.Session())} && (n.HostLatest? ==> n.host == it.env.hostId)
  }

  predicate FilesUnder(ws: seq<Write>, date: string, key: EventKey) {
    exists i :: 0 <= i < |ws| && ws[i].FileOne? && ws[i].date == date && ws[i].key == key
  }

  /** Every write files the envelope under its own date and key, or binds an allowed name, or just stores. */
  predicate WritesOnly(ws: seq<Write>, it: Item, st: SessionState) {
    forall i :: 0 <= i < |ws| ==>
      match ws[i]
      case PutOne(_) => true
      case BindOne(name, _) => MayBind(name, it) || Some(name) == st.startMarker
      case FileOne(date, key, _, _) => it.env.event.IsContent() && date == it.Date() && key == it.Key()
  }

  /** The seen-set is kept, and the start marker is dropped, kept, or set by the envelope itself. */
  predicate Continues(after: SessionState, st: SessionState, it: Item) {
    after.seen == st.seen && after.startMarker in {None, st.startMarker, Some(it.Marker())}
  }

  lemma CheckpointWrites(st: SessionState, it: Item, title: string)
    ensures WritesOnly(WriteCheckpoint(st, it, title).writes, it, st)
    ensures Continues(WriteCheckpoint(st, it, title).state, st, it)
  {
    if st.head.Some? {
      var cp := Cid(At(it.clock), Checkpoint(title, st.head.value, st.lastCheckpoint));
      BindCheckpointWrites(st, it, cp, ScopedNames(it.env, title));
    }
  }

  lemma BindCheckpointWrites(st: SessionState, it: Item, cp: Cid, names: seq<Name>)
    requires forall i :: 0 <= i < |names| ==> MayBind(names[i], it)
    ensures WritesOnly(BindCheckpoint(st, it, cp, names).writes, it, st)
    ensures Continues(BindCheckpoint(st, it, cp, names).state, st, it)
  {
  }

  lemma NodeWrites(st: SessionState, it: Item, node: Node)
    requires it.env.event.IsContent()
    ensures var o := WriteNode(st, it, node);
            WritesOnly(o.writes, it, st) && Continues(o.state, st, it)
            && (o.failure.None? ==> FilesUnder(o.writes, it.Date(), it.Key()))
  {
    var o := WriteNode(st, it, node);
    if o.failure.None? {
      assert o.writes[1].FileOne?;
    }
  }

  /** A run of the machine on one envelope: what it may write, and that a content event handled without a
      refusal is filed. */
  lemma HandleWrites(known: bool, st: SessionState, it: Item)
    ensures var o := Handle(known, st, it);
            && WritesOnly(o.writes, it, st)
            && Continues(o.state, See(st, it), it)
            && (Repeated(st, it) || known ==> o.writes == [])
            && (o.failure.None? && it.env.event.IsContent() && !Repeated(st, it) && !known ==>
                  FilesUnder(o.writes, it.Date(), it.Key()))
  {
    var st1 := See(st, it);
    assert Repeated(st, it) ==> st1 == st;
    match it.env.event
    case SessionStarted(_) =>
    case ToolCallStarted(_, _) =>
    case CheckpointRequested(title) => CheckpointWrites(st1, it, OrElse(title, "checkpoint"));
    case SessionEnded => CheckpointWrites(st1, it, "session-ended");
    case ToolCallFinished(tool, _, _) => NodeWrites(PopArgs(st1, tool), it, ContentNode(it, OldestArgs(st1, tool)));
    case FileRead(_) => FileWrites(st1, it);
    case FileWritten(_) => FileWrites(st1, it);
    case _ => NodeWrites(st1, it, ContentNode(it, ""));
  }

  lemma FileWrites(st: SessionState, it: Item)
    requires it.env.event.IsFile()
    ensures var o := WriteFile(st, it);
            WritesOnly(o.writes, it, st) && Continues(o.state, st, it)
            && (o.failure.None? ==> FilesUnder(o.writes, it.Date(), it.Key()))
  {
    if it.disk.Some? && PutBlob !in it.faults {
      var o := WriteNode(st, it, ContentNode(it, ""));
      NodeWrites(st, it, ContentNode(it, ""));
      if o.failure.None? {
        var i :| 0 <= i < |o.writes| && o.writes[i].FileOne?
                 && o.writes[i].date == it.Date() && o.writes[i].key == it.Key();
        assert WriteFile(st, it).writes[i + 1] == o.writes[i];
      }
    }
  }

  // ---- what writes do --------------------------------------------------------------------------

  function FiledRecord(s: Tier, date: string, key: EventKey): Option<Cid> {
    Lookup(DayEvents(s, date), key)
  }

  lemma {:induction false} ApplyFiles(s: Tier, ws: seq<Write>, date: string, key: EventKey)
    ensures DayContains(Apply(s, ws), date, key) <==> DayContains(s, date, key) || FilesUnder(ws, date, key)
    ensures !FilesUnder(ws, date, key) ==> FiledRecord(Apply(s, ws), date, key) == FiledRecord(s, date, key)
  {
    if ws != [] {
      var before := ws[..|ws| - 1];
      ApplyFiles(s, before, date, key);
      assert forall i :: 0 <= i < |before| ==> before[i] == ws[i];
      if FilesUnder(before, date, key) {
        var i :| 0 <= i < |before| && before[i].FileOne? && before[i].date == date && before[i].key == key;
        assert ws[i] == before[i];
      }
    }
  }

  predicate BindsName(ws: seq<Write>, name: Name) {
    exists i :: 0 <= i < |ws| && ws[i].BindOne? && ws[i].name == name
  }

  lemma {:induction false} ApplyBinds(s: Tier, ws: seq<Write>, name: Name)
    requires !BindsName(ws, name)
    ensures Lookup(Apply(s, ws).names, name) == Lookup(s.names, name)
  {
    if ws != [] {
      var before := ws[..|ws| - 1];
      assert forall i :: 0 <= i < |before| ==> before[i] == ws[i];
      ApplyBinds(s, before, name);
    }
  }

  /** What the same writes leave under a name, or under a day key, agrees if it agreed before. */
  lemma {:induction false} ApplyAgreesOnName(s: Tier, t: Tier, ws: seq<Write>, name: Name)
    requires Lookup(s.names, name) == Lookup(t.names, name)
    ensures Lookup(Apply(s, ws).names, name) == Lookup(Apply(t, ws).names, name)
  {
    if ws != [] {
      ApplyAgreesOnName(s, t, ws[..|ws| - 1], name);
    }
  }

  lemma {:induction false} ApplyAgreesOnKey(s: Tier, t: Tier, ws: seq<Write>, date: string, key: EventKey)
    requires FiledRecord(s, date, key) == FiledRecord(t, date, key)
    ensures FiledRecord(Apply(s, ws), date, key) == FiledRecord(Apply(t, ws), date, key)
  {
    if ws != [] {
      var before, last := ws[..|ws| - 1], ws[|ws| - 1];
      ApplyAgreesOnKey(s, t, before, date, key);
      DoAgreesOnKey(Apply(s, before), Apply(t, before), last, date, key);
    }
  }

  lemma DoAgreesOnKey(s: Tier, t: Tier, w: Write, date: string, key: EventKey)
    requires FiledRecord(s, date, key) == FiledRecord(t, date, key)
    ensures FiledRecord(Do(s, w), date, key) == FiledRecord(Do(t, w), date, key)
  {
  }
}
