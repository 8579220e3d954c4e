/** What a Codex rollout says comes out as it was said: a prompt for each message of the user, an answer for each of
    the assistant, and the calls, results, edits and starts of sessions their records tell of, in order and in time. */
module RolloutText {
  import opened Basics
  import opened Events
  import opened EventIds
  import opened Codex
  import opened Projections
  import opened Rollouts

  // ---- the reference, on kind, role and content ------------------------------------------------------------

  /** The record's own time, or the epoch. */
  function TimeOf(r: Record): string {
    if r.Record? && r.timestamp.Some? then r.timestamp.value else "1970-01-01T00:00:00Z"
  }

  function Edits(paths: seq<string>): (events: seq<Event>)
    ensures |events| == |paths| && forall i :: 0 <= i < |paths| ==> events[i] == FileWritten(paths[i])
  {
    seq(|paths|, i requires 0 <= i < |paths| => FileWritten(paths[i]))
  }

  /** A message of the user is a prompt and one of the assistant an answer. */
  function MessageTells(role: Role, content: Option<string>): seq<Event> {
    match (role, content)
    case (User, Some(text)) => [UserPrompt(text)]
    case (Assistant, Some(text)) => [ModelResponse(text)]
    case _ => []
  }

  /** A function call has arguments and a custom one an input; an output is a failure if it looks like one. */
  function ItemTells(p: Payload): seq<Event> {
    match p.kind
    case MessageItem => MessageTells(p.role, p.content)
    case FunctionCall => [ToolCallStarted(OrElse(p.name, "tool"), p.arguments)]
    case CustomToolCall => [ToolCallStarted(OrElse(p.name, "tool"), p.input)]
    case FunctionCallOutput => [Returned(!p.failed, p.output)]
    case CustomToolCallOutput => [Returned(!p.failed, p.output)]
    case _ => []
  }

  /** A patch edits its files and then has a result, which is fine unless it says it is not. */
  function PatchTells(p: Payload): seq<Event> {
    if p.kind == PatchApplyEnd then
      Edits(p.changed) + [Returned(p.success != Some(false), if p.stdout.Some? then p.stdout else p.stderr)]
    else []
  }

  function RecordTells(r: Record): seq<Told> {
    match r
    case NotAnObject => []
    case Record(SessionMeta, _, p) => AllAt(TimeOf(r), [SessionStarted(p.cwd)])
    case Record(ResponseItem, _, p) => AllAt(TimeOf(r), ItemTells(p))
    case Record(EventMsg, _, p) => AllAt(TimeOf(r), PatchTells(p))
    case Record(OtherRecord, _, _) => []
  }

  // ---- what a record says ----------------------------------------------------------------------------------

  function EventsIn(said: seq<Saying>): (events: seq<Event>)
    ensures |events| == |said| && forall i :: 0 <= i < |said| ==> events[i] == said[i].event
  {
    seq(|said|, i requires 0 <= i < |said| => said[i].event)
  }

  lemma PatchIsTold(p: Payload)
    requires p.kind == PatchApplyEnd
    ensures AllAt("", EventsIn(Patched(p))) == AllAt("", PatchTells(p))
  {
    WrittenAreFiles(p.changed);
  }

  lemma SameAtAnyTime(ts: string, a: seq<Event>, b: seq<Event>)
    requires AllAt("", a) == AllAt("", b)
    ensures AllAt(ts, a) == AllAt(ts, b)
  {
    forall i | 0 <= i < |a| ensures AllAt(ts, a)[i] == AllAt(ts, b)[i] {
      assert AllAt("", a)[i] == AllAt("", b)[i];
    }
  }

  /** Whatever is remembered, a record says this. */
  lemma RecordIsTold(m: Memory, r: Record)
    ensures AllAt(r.Ts(), EventsIn(Codex.Said(m, r))) == RecordTells(r)
  {
    if IsPatch(r) {
      PatchIsTold(r.payload);
      SameAtAnyTime(r.Ts(), EventsIn(Patched(r.payload)), PatchTells(r.payload));
    }
  }

  lemma EmittedTells(source: string, project: Option<string>, out: seq<Envelope>, ts: string, said: seq<Saying>)
    ensures Tellings(Emitted(source, project, out, ts, said)) == Tellings(out) + AllAt(ts, EventsIn(said))
  {
    forall i | 0 <= i < |said|
      ensures Emitted(source, project, out, ts, said)[|out| + i]
              == EnvelopeAt(source, project, |out| + i, ts, said[i].reasoning, said[i].event)
    {
      EmittedAt(source, project, out, ts, said, i);
    }
  }

  lemma {:induction false} BodyTells(source: string, records: seq<Record>)
    ensures Tellings(Body(source, records)) == Gather(RecordTells, records)
  {
    if records != [] {
      var before, r := records[..|records| - 1], records[|records| - 1];
      BodyTells(source, before);
      RecordIsTold(MemoryAfter(before), r);
      EmittedTells(source, MemoryAfter(records).project, Body(source, before), r.Ts(),
                   Codex.Said(MemoryAfter(before), r));
    }
  }

  /** What comes out is what the records tell, in order and in time, whatever is remembered from one to the next; and at
      the end, if some record began the session, that it ended. */
  lemma RolloutsComeOut(source: string, records: seq<Record>)
    ensures Tellings(Translation(source, records))
            == Gather(RecordTells, records)
               + if exists r :: r in records && r.Record? && r.kind == SessionMeta
                 then [Told("1970-01-01T00:00:00Z", SessionEnded)] else []
  {
    BodyTells(source, records);
    StartedByMeta(records);
    var out := Body(source, records);
    if MemoryAfter(records).started {
      TellingsOfTwo(out, [EnvelopeAt(source, MemoryAfter(records).project, |out|, EPOCH, None, SessionEnded)]);
    } else {
      assert forall r :: r in records ==> !BeginsSession(r);
      NothingMore(Gather(RecordTells, records));
    }
  }

  /** And each event is Codex's, of this session, and says where it came from. */
  lemma EventsAreCodexs(source: string, records: seq<Record>, i: nat)
    requires i < |Translation(source, records)|
    ensures var env := Translation(source, records)[i];
            && env.hostId == "codex" && env.sessionId == source && env.eventId == Some(source + "#" + Decimal(i))
            && env.importedFrom == Some(ImportedFrom("codex", source + "#" + Decimal(i), env.ts))
  {
    TranslationsAreSessions(source, records);
  }

  // ---- projects --------------------------------------------------------------------------------------------

  /** The project of the latest session record: the last component of its working directory, if it names one. */
  function ProjectBy(records: seq<Record>): Option<string> {
    if records == [] then None
    else
      var r := records[|records| - 1];
      if r.Record? && r.kind == SessionMeta then ProjectOf(r.payload.cwd) else ProjectBy(records[..|records| - 1])
  }

  lemma {:induction false} ProjectIsTheLatest(records: seq<Record>)
    ensures MemoryAfter(records).project == ProjectBy(records)
  {
    if records != [] {
      ProjectIsTheLatest(records[..|records| - 1]);
    }
  }

  /** An event of a record happened then, and carries the project of the latest session record. */
  predicate OfRecord(env: Envelope, records: seq<Record>) {
    records != [] && env.ts == TimeOf(records[|records| - 1]) && env.projectId == ProjectBy(records)
  }

  lemma EmittedOfRecord(source: string, project: Option<string>, out: seq<Envelope>, ts: string, said: seq<Saying>,
                        i: nat)
    requires |out| <= i < |out| + |said|
    ensures var env := Emitted(source, project, out, ts, said)[i]; env.ts == ts && env.projectId == project
  {
    EmittedAt(source, project, out, ts, said, i - |out|);
  }

  /** Event `i` was emitted for record `n`. */
  predicate EmittedFor(source: string, records: seq<Record>, n: nat, i: nat) {
    n < |records| && |Body(source, records[..n])| <= i < |Body(source, records[..n + 1])|
  }

  lemma EmittedForOneOfThem(source: string, records: seq<Record>, m: nat, i: nat) returns (n: nat)
    requires m <= |records| && i < |Body(source, records[..m])|
    ensures n < m && EmittedFor(source, records, n, i)
  {
    n := m - 1;
    if i < |Body(source, records[..n])| {
      n := EmittedForOneOfThem(source, records, n, i);
    }
  }

  lemma ItsRecord(source: string, records: seq<Record>, n: nat, i: nat)
    requires EmittedFor(source, records, n, i)
    ensures OfRecord(Body(source, records[..n + 1])[i], records[..n + 1])
  {
    var m := MemoryAfter(records[..n]);
    OneMore(source, records, n);
    ProjectIsTheLatest(records[..n + 1]);
    EmittedOfRecord(source, After(m, records[n]).project, Body(source, records[..n]), records[n].Ts(),
                    Codex.Said(m, records[n]), i);
  }

  /** Every event belongs to a record: it happened then, and carries the project of the latest session record. */
  lemma EventsBelongToRecords(source: string, records: seq<Record>, i: nat) returns (n: nat)
    requires i < |Body(source, records)|
    ensures EmittedFor(source, records, n, i) && OfRecord(Body(source, records)[i], records[..n + 1])
  {
    assert records[..|records|] == records;
    n := EmittedForOneOfThem(source, records, |records|, i);
    ItsRecord(source, records, n, i);
    BodyGrows(source, records, n + 1);
  }

  lemma {:induction false} SlashesAreTrimmed(s: string, slashes: string)
    requires (s == "" || s[|s| - 1] != '/') && forall i :: 0 <= i < |slashes| ==> slashes[i] == '/'
    ensures TrimSlashes(s + slashes) == s
  {
    if slashes == "" {
      NothingMore(s);
    } else {
      var fewer := slashes[..|slashes| - 1];
      SlashesAreTrimmed(s, fewer);
      assert (s + slashes)[..|s + slashes| - 1] == s + fewer;
    }
  }

  lemma {:induction false} LastPartIs(dir: string, name: string)
    requires (dir == "" || dir[|dir| - 1] == '/') && '/' !in name
    ensures LastPart(dir + name) == name
  {
    if name == "" {
      NothingMore(dir);
    } else {
      var before, last := name[..|name| - 1], name[|name| - 1];
      LastPartIs(dir, before);
      assert (dir + name)[..|dir + name| - 1] == dir + before && last in name;
    }
  }

  /** A directory's project is its last component, whatever slashes follow it. */
  lemma ProjectIsTheLastComponent(dir: string, name: string, slashes: string)
    requires (dir == "" || dir[|dir| - 1] == '/') && name != "" && '/' !in name
    requires forall i :: 0 <= i < |slashes| ==> slashes[i] == '/'
    ensures ProjectOf(Some(dir + name + slashes)) == Some(name)
    ensures ProjectOf(Some(slashes)) == None
  {
    assert name[|name| - 1] in name;
    SlashesAreTrimmed(dir + name, slashes);
    LastPartIs(dir, name);
    SlashesAreTrimmed("", slashes);
    NothingMore(slashes);
  }
}
