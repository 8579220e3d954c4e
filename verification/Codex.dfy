/** The Codex transcript translator (crates/adapter-codex/src/lib.rs): one rollout record after another becomes
    envelopes, and a longer rollout extends what a shorter one became. */
module Codex {
  import opened Basics
  import opened Events
  import opened EventIds

  const HOST_ID := "codex"
  const EPOCH := "1970-01-01T00:00:00Z"

  /** The record, payload and role tags the translator knows; any other or missing tag is `Other`. */
  datatype RecordKind = SessionMeta | ResponseItem | EventMsg | OtherRecord

  datatype PayloadKind =
    | ReasoningItem | MessageItem | FunctionCall | CustomToolCall | FunctionCallOutput | CustomToolCallOutput
    | PatchApplyEnd | OtherItem

  datatype Role = User | Assistant | OtherRole

  /** The parts of a record's payload the translator looks at.  `content` and `summary` are the joined texts of
      those fields (none when empty), the latter already capped; `arguments`, `input`, `output`, `stdout` and
      `stderr` are their compact texts; `failed` says whether the output looks like an error. */
  datatype Payload = Payload(
    kind: PayloadKind,
    cwd: Option<string>,
    summary: Option<string>,
    role: Role,
    content: Option<string>,
    name: Option<string>,
    callId: Option<string>,
    arguments: Option<string>,
    input: Option<string>,
    output: Option<string>,
    failed: bool,
    success: Option<bool>,
    changed: seq<string>,
    stdout: Option<string>,
    stderr: Option<string>)

  datatype Record =
    | NotAnObject
    | Record(kind: RecordKind, timestamp: Option<string>, payload: Payload)
  {
    function Ts(): string {
      if Record? then OrElse(timestamp, EPOCH) else EPOCH
    }
  }

  function TrimSlashes(s: string): string {
    if s != "" && s[|s| - 1] == '/' then TrimSlashes(s[..|s| - 1]) else s
  }

  function LastPart(s: string): string {
    if s == "" || s[|s| - 1] == '/' then "" else LastPart(s[..|s| - 1]) + [s[|s| - 1]]
  }

  /** The last component of the working directory. */
  function ProjectOf(cwd: Option<string>): Option<string> {
    match cwd
    case None => None
    case Some(path) =>
      var base := LastPart(TrimSlashes(path));
      if base == "" then None else Some(base)
  }

  function EnvelopeAt(source: string, project: Option<string>, seqNo: nat, ts: string,
                      reasoning: Option<Reasoning>, event: Event): Envelope {
    var id := Numbered(source, seqNo);
    Envelope(HOST_ID, source, project, Some(id), ts, Some(ImportedFrom("codex", id, ts)), reasoning, event)
  }

  /** What the translator remembers: the project, the tool each call id names, the reasoning waiting for its
      answer, and whether the session has begun. */
  datatype Memory = Memory(
    project: Option<string>,
    names: map<string, string>,
    pending: Option<Reasoning>,
    started: bool)

  const NOTHING_YET := Memory(None, map[], None, false)

  predicate IsPatch(r: Record) {
    r.Record? && r.kind == EventMsg && r.payload.kind == PatchApplyEnd
  }

  predicate BeginsSession(r: Record) {
    r.Record? && r.kind == SessionMeta
  }

  /** A response item with a payload of this kind. */
  predicate IsItem(r: Record, kind: PayloadKind) {
    r.Record? && r.kind == ResponseItem && r.payload.kind == kind
  }

  predicate IsCall(r: Record) {
    IsItem(r, FunctionCall) || IsItem(r, CustomToolCall)
  }

  predicate IsOutput(r: Record) {
    IsItem(r, FunctionCallOutput) || IsItem(r, CustomToolCallOutput)
  }

  /** A message with a text, from this role. */
  predicate IsFrom(r: Record, role: Role) {
    IsItem(r, MessageItem) && r.payload.content.Some? && r.payload.role == role
  }

  /** What the translator remembers after a record. */
  function After(m: Memory, r: Record): Memory {
    if BeginsSession(r) then m.(project := ProjectOf(r.payload.cwd), started := true)
    else if IsItem(r, ReasoningItem) then
      m.(pending := match r.payload.summary case Some(text) => Some(Reasoning(text, Thinking)) case None => None)
    else if IsFrom(r, User) || IsFrom(r, Assistant) then m.(pending := None)
    else if IsCall(r) && r.payload.callId.Some? then
      m.(names := m.names[r.payload.callId.value := OrElse(r.payload.name, "tool")])
    else m
  }

  datatype Saying = Saying(reasoning: Option<Reasoning>, event: Event)

  function ToolNamed(names: map<string, string>, callId: Option<string>): string {
    match callId
    case Some(id) => OrElse(Lookup(names, id), "tool")
    case None => "tool"
  }

  function Written(paths: seq<string>): (r: seq<Saying>)
    ensures |r| == |paths|
  {
    if paths == [] then [] else Written(paths[..|paths| - 1]) + [Saying(None, FileWritten(paths[|paths| - 1]))]
  }

  /** A patch is every file it wrote, then the result of applying it. */
  function Patched(p: Payload): seq<Saying> {
    Written(p.changed) + [Saying(None, ToolCallFinished("apply_patch", OrElse(p.success, true),
                                                        if p.stdout.Some? then p.stdout else p.stderr))]
  }

  /** The events a record becomes. */
  function Said(m: Memory, r: Record): seq<Saying> {
    if r.NotAnObject? then []
    else
      var p := r.payload;
      if BeginsSession(r) then [Saying(None, SessionStarted(p.cwd))]
      else if IsFrom(r, User) then [Saying(None, UserPrompt(p.content.value))]
      else if IsFrom(r, Assistant) then [Saying(m.pending, ModelResponse(p.content.value))]
      else if IsCall(r) then
        [Saying(None, ToolCallStarted(OrElse(p.name, "tool"),
                                      if IsItem(r, FunctionCall) then p.arguments else p.input))]
      else if IsOutput(r) then
        [Saying(None, ToolCallFinished(ToolNamed(m.names, p.callId), !p.failed, p.output))]
      else if IsPatch(r) then
        Patched(p)
      else []
  }

  /** Events put into envelopes after those in `out`. */
  function Emitted(source: string, project: Option<string>, out: seq<Envelope>, ts: string, said: seq<Saying>)
    : (r: seq<Envelope>)
    ensures |r| == |out| + |said| && out <= r
  {
    if said == [] then out
    else
      var before := Emitted(source, project, out, ts, said[..|said| - 1]);
      var last := said[|said| - 1];
      before + [EnvelopeAt(source, project, |before|, ts, last.reasoning, last.event)]
  }

  function MemoryAfter(records: seq<Record>): Memory {
    if records == [] then NOTHING_YET else After(MemoryAfter(records[..|records| - 1]), records[|records| - 1])
  }

  /** The envelopes of the records, in order. */
  function Body(source: string, records: seq<Record>): seq<Envelope> {
    if records == [] then []
    else
      var before, r := records[..|records| - 1], records[|records| - 1];
      Emitted(source, MemoryAfter(records).project, Body(source, before), r.Ts(), Said(MemoryAfter(before), r))
  }

  /** The whole translation: the records, then the end of a session that began. */
  function Translation(source: string, records: seq<Record>): seq<Envelope> {
    var out := Body(source, records);
    if MemoryAfter(records).started
    then out + [EnvelopeAt(source, MemoryAfter(records).project, |out|, EPOCH, None, SessionEnded)]
    else out
  }

  // ---- the translator itself ---------------------------------------------------------------------------

  lemma EmitOne(source: string, project: Option<string>, out: seq<Envelope>, ts: string, said: Saying)
    ensures Emitted(source, project, out, ts, [said])
            == out + [EnvelopeAt(source, project, |out|, ts, said.reasoning, said.event)]
  {
    assert [said][..0] == [];
  }

  lemma EmitLast(source: string, project: Option<string>, out: seq<Envelope>, ts: string, said: seq<Saying>,
                 last: Saying)
    ensures Emitted(source, project, out, ts, said + [last])
            == Emitted(source, project, Emitted(source, project, out, ts, said), ts, [last])
  {
    assert (said + [last])[..|said|] == said && [last][..0] == [];
  }

  class Emit {
    const sessionId: string
    var projectId: Option<string>
    var seqNo: nat
    var out: seq<Envelope>

    constructor (source: string)
      ensures sessionId == source && projectId == None && seqNo == 0 && out == []
    {
      sessionId := source;
      projectId := None;
      seqNo := 0;
      out := [];
    }

    /** Emissions are numbered in the order they are made. */
    ghost predicate Valid()
      reads this
    {
      seqNo == |out|
    }

    method Append(ts: string, reasoning: Option<Reasoning>, event: Event)
      requires Valid()
      modifies this`seqNo, this`out
      ensures Valid()
      ensures out == Emitted(sessionId, projectId, old(out), ts, [Saying(reasoning, event)])
    {
      EmitOne(sessionId, projectId, out, ts, Saying(reasoning, event));
      var id := Numbered(sessionId, seqNo);
      seqNo := seqNo + 1;
      out := out + [Envelope(HOST_ID, sessionId, projectId, Some(id), ts, Some(ImportedFrom("codex", id, ts)),
                             reasoning, event)];
    }

    method AppendPatch(ts: string, p: Payload)
      requires Valid()
      modifies this`seqNo, this`out
      ensures Valid()
      ensures out == Emitted(sessionId, projectId, old(out), ts, Patched(p))
    {
      var paths := p.changed;
      for i := 0 to |paths|
        invariant Valid()
        invariant out == Emitted(sessionId, projectId, old(out), ts, Written(paths[..i]))
      {
        assert paths[..i + 1][..i] == paths[..i];
        EmitLast(sessionId, projectId, old(out), ts, Written(paths[..i]), Saying(None, FileWritten(paths[i])));
        Append(ts, None, FileWritten(paths[i]));
      }
      assert paths[..|paths|] == paths;
      var result := ToolCallFinished("apply_patch", OrElse(p.success, true),
                                     if p.stdout.Some? then p.stdout else p.stderr);
      EmitLast(sessionId, projectId, old(out), ts, Written(paths), Saying(None, result));
      Append(ts, None, result);
    }
  }

  lemma OneMore(source: string, records: seq<Record>, i: nat)
    requires i < |records|
    ensures var m, r := MemoryAfter(records[..i]), records[i];
            && MemoryAfter(records[..i + 1]) == After(m, r)
            && Body(source, records[..i + 1])
               == Emitted(source, After(m, r).project, Body(source, records[..i]), r.Ts(), Said(m, r))
  {
    assert records[..i + 1][..i] == records[..i];
  }

  /** The loop body for a response item or a patch: it says what the record says, and remembers it. */
  method Respond(e: Emit, names: map<string, string>, pending: Option<Reasoning>, r: Record, ghost m: Memory)
    returns (namesAfter: map<string, string>, pendingAfter: Option<Reasoning>)
    requires e.Valid() && r.Record? && (r.kind == ResponseItem || IsPatch(r))
    requires m == Memory(e.projectId, names, pending, m.started)
    modifies e`seqNo, e`out
    ensures e.Valid()
    ensures After(m, r) == Memory(e.projectId, namesAfter, pendingAfter, m.started)
    ensures e.out == Emitted(e.sessionId, e.projectId, old(e.out), r.Ts(), Said(m, r))
  {
    var ts, p := r.Ts(), r.payload;
    namesAfter, pendingAfter := names, pending;
    if p.kind == ReasoningItem {
      pendingAfter := match p.summary case Some(text) => Some(Reasoning(text, Thinking)) case None => None;
    } else if p.kind == MessageItem {
      if p.content.None? {
        return;
      }
      if p.role == User {
        e.Append(ts, None, UserPrompt(p.content.value));
        pendingAfter := None;
      } else if p.role == Assistant {
        e.Append(ts, pending, ModelResponse(p.content.value));
        pendingAfter := None;
      }
    } else if p.kind == FunctionCall || p.kind == CustomToolCall {
      var name := OrElse(p.name, "tool");
      if p.callId.Some? {
        namesAfter := names[p.callId.value := name];
      }
      e.Append(ts, None, ToolCallStarted(name, if p.kind == FunctionCall then p.arguments else p.input));
    } else if p.kind == FunctionCallOutput || p.kind == CustomToolCallOutput {
      e.Append(ts, None, ToolCallFinished(ToolNamed(names, p.callId), !p.failed, p.output));
    } else if IsPatch(r) {
      e.AppendPatch(ts, p);
    }
  }

  lemma OtherRecordsAreIgnored(source: string, m: Memory, r: Record, out: seq<Envelope>)
    requires r.Record? ==> r.kind == OtherRecord || (r.kind == EventMsg && r.payload.kind != PatchApplyEnd)
    ensures After(m, r) == m && Emitted(source, m.project, out, r.Ts(), Said(m, r)) == out
  {
  }

  method Translate(records: seq<Record>, source: string) returns (envelopes: seq<Envelope>)
    ensures envelopes == Translation(source, records)
  {
    var e := new Emit(source);
    var names: map<string, string> := map[];
    var pending: Option<Reasoning> := None;
    var started := false;
    for i := 0 to |records|
      invariant e.sessionId == source && e.Valid()
      invariant Memory(e.projectId, names, pending, started) == MemoryAfter(records[..i])
      invariant e.out == Body(source, records[..i])
    {
      var r := records[i];
      OneMore(source, records, i);
      if r.Record? && r.kind == SessionMeta {
        e.projectId := ProjectOf(r.payload.cwd);
        e.Append(r.Ts(), None, SessionStarted(r.payload.cwd));
        started := true;
      } else if r.Record? && (r.kind == ResponseItem || IsPatch(r)) {
        names, pending := Respond(e, names, pending, r, MemoryAfter(records[..i]));
      } else {
        OtherRecordsAreIgnored(source, MemoryAfter(records[..i]), r, e.out);
      }
    }
    assert records[..|records|] == records;
    if started {
      EmitOne(source, e.projectId, e.out, EPOCH, Saying(None, SessionEnded));
      e.Append(EPOCH, None, SessionEnded);
    }
    envelopes := e.out;
  }
}
