/** The Claude Code adapter (crates/adapter-claude-code/src/lib.rs): transcript lines become envelopes, either a
    whole file at a time or as a tail that picks up where the last poll ended. */
module ClaudeCode {
  import opened Basics
  import opened Events
  import opened EventIds
  import opened Text

  const HOST_ID := "claude-code"
  const NEWLINE: Byte := 10

  datatype Block =
    | Thinking(thought: Option<string>)
    | TextBlock(text: Option<string>)
    | ToolUse(id: Option<string>, name: Option<string>, input: Option<string>)
    | ToolResult(useId: Option<string>, isError: Option<bool>, result: Option<string>)
    | OtherBlock

  datatype Content = NoContent | Plain(text: string) | Blocks(blocks: seq<Block>)

  datatype Speaker = User | Assistant | Nobody

  datatype Line = Line(
    speaker: Speaker,
    sessionId: Option<string>,
    uuid: Option<string>,
    timestamp: Option<string>,
    cwd: Option<string>,
    content: Content)
  {
    /** Only lines of a conversation are translated. */
    predicate Talks() {
      speaker != Nobody && sessionId.Some?
    }

    function Session(): string {
      OrElse(sessionId, "")
    }

    function Ts(): string {
      OrElse(timestamp, "")
    }

    /** The line's own id, or else one made of its stable fields. */
    function BaseId(): string {
      match uuid
      case Some(u) => u
      case None => "cc:" + Session() + ":" + Ts() + ":" + (if speaker == User then "user" else "assistant")
    }
  }

  /** The text of a line to its contents; none for a blank or malformed line. */
  type Parser = seq<Byte> -> Option<Line>

  function Thoughts(blocks: seq<Block>): seq<string> {
    if blocks == [] then []
    else
      var b := blocks[|blocks| - 1];
      Thoughts(blocks[..|blocks| - 1]) + if b.Thinking? && b.thought.Some? then [b.thought.value] else []
  }

  function Passages(blocks: seq<Block>): seq<string> {
    if blocks == [] then []
    else
      var b := blocks[|blocks| - 1];
      Passages(blocks[..|blocks| - 1]) + if b.TextBlock? && b.text.Some? then [b.text.value] else []
  }

  // ---- one line ----------------------------------------------------------------------------------------

  /** The tool names known by the ids of their calls. */
  type Names = map<string, string>

  function NamesAfterBlock(names: Names, b: Block): Names {
    if b.ToolUse? && b.id.Some? then names[b.id.value := OrElse(b.name, "tool")] else names
  }

  function NamesAfterBlocks(names: Names, blocks: seq<Block>): Names
    decreases |blocks|
  {
    if blocks == [] then names else NamesAfterBlocks(NamesAfterBlock(names, blocks[0]), blocks[1..])
  }

  /** A result is labelled by its call's tool, or by its call's id, or not at all. */
  function LabelOf(names: Names, useId: Option<string>): string {
    match useId
    case Some(id) => if id in names then names[id] else id
    case None => "tool"
  }

  function BlockSaid(names: Names, b: Block): seq<Event> {
    match b
    case ToolUse(_, name, input) => [ToolCallStarted(OrElse(name, "tool"), input)]
    case ToolResult(useId, isError, result) =>
      [ToolCallFinished(LabelOf(names, useId), !OrElse(isError, false), result)]
    case _ => []
  }

  function BlocksSaid(names: Names, blocks: seq<Block>): seq<Event>
    decreases |blocks|
  {
    if blocks == [] then []
    else BlockSaid(names, blocks[0]) + BlocksSaid(NamesAfterBlock(names, blocks[0]), blocks[1..])
  }

  function BlocksOf(line: Line): seq<Block> {
    if line.content.Blocks? then line.content.blocks else []
  }

  /** What precedes the tool events: the prompt, or the joined texts. */
  function Spoken(line: Line): seq<Event> {
    match line.content
    case NoContent => []
    case Plain(text) => [if line.speaker == User then UserPrompt(text) else ModelResponse(text)]
    case Blocks(blocks) => if Blank(Join(Passages(blocks))) then [] else [ModelResponse(Join(Passages(blocks)))]
  }

  function Thought(line: Line): Option<Reasoning> {
    var text := Join(Thoughts(BlocksOf(line)));
    if text == "" then None else Some(Reasoning(text, ReasoningSource.Thinking))
  }

  function EnvelopeFor(session: string, id: string, ts: string, event: Event, reasoning: Option<Reasoning>): Envelope {
    Envelope(HOST_ID, session, None, Some(id), ts, Some(ImportedFrom("claude-code", id, ts)), reasoning, event)
  }

  /** A line's events are numbered, and its thinking rides on the first. */
  function Stamped(line: Line, events: seq<Event>): (out: seq<Envelope>)
    ensures |out| == |events|
  {
    if events == [] then []
    else Stamped(line, events[..|events| - 1]) + [EventAt(line, |events| - 1, events[|events| - 1])]
  }

  function EventAt(line: Line, i: nat, event: Event): Envelope {
    EnvelopeFor(line.Session(), Numbered(line.BaseId(), i), line.Ts(), event, if i == 0 then Thought(line) else None)
  }

  function LineOut(names: Names, line: Line): seq<Envelope> {
    Stamped(line, Spoken(line) + BlocksSaid(names, BlocksOf(line)))
  }

  /** All a line adds: it opens the session if none has. */
  function LineAdds(started: bool, names: Names, line: Line): seq<Envelope> {
    (if started then [] else [StartOf(line)]) + LineOut(names, line)
  }

  function StartOf(line: Line): Envelope {
    EnvelopeFor(line.Session(), line.BaseId() + "#start", line.Ts(), SessionStarted(line.cwd), None)
  }

  function CheckpointOf(session: string): Envelope {
    EnvelopeFor(session, session + "#checkpoint", "",
                CheckpointRequested(Some("claude-code session " + session)), None)
  }

  // ---- a chunk of lines --------------------------------------------------------------------------------

  function Talk(lines: seq<Line>): seq<Line> {
    if lines == [] then []
    else Talk(lines[..|lines| - 1]) + if lines[|lines| - 1].Talks() then [lines[|lines| - 1]] else []
  }

  function NamesAfter(names: Names, lines: seq<Line>): Names {
    if lines == [] then names
    else NamesAfterBlocks(NamesAfter(names, lines[..|lines| - 1]), BlocksOf(lines[|lines| - 1]))
  }

  /** The events of lines of conversation read in one go. */
  function EventsOf(names: Names, lines: seq<Line>): seq<Envelope> {
    if lines == [] then []
    else EventsOf(names, lines[..|lines| - 1]) + LineOut(NamesAfter(names, lines[..|lines| - 1]), lines[|lines| - 1])
  }

  /** A chunk with any conversation in it is the session's start, if this chunk is to announce it, then the events,
      then a request for a checkpoint. */
  function ChunkOut(talk: seq<Line>, announce: bool): seq<Envelope> {
    if talk == [] then []
    else Announced(talk, announce) + EventsOf(map[], talk) + [CheckpointOf(talk[|talk| - 1].Session())]
  }

  function Announced(talk: seq<Line>, announce: bool): seq<Envelope> {
    if announce && talk != [] then [StartOf(talk[0])] else []
  }

  class SessionXlate {
    var toolNames: Names
    var started: bool
    var lastSessionId: Option<string>

    constructor (announce: bool)
      ensures toolNames == map[] && started == !announce && lastSessionId == None
    {
      toolNames := map[];
      started := !announce;
      lastSessionId := None;
    }

    method TranslateBlock(b: Block, events: seq<Event>) returns (out: seq<Event>)
      modifies this`toolNames
      ensures out == events + BlockSaid(old(toolNames), b) && toolNames == NamesAfterBlock(old(toolNames), b)
    {
      out := events;
      match b
      case ToolUse(id, name, input) =>
        var tool := OrElse(name, "tool");
        if id.Some? {
          toolNames := toolNames[id.value := tool];
        }
        out := out + [ToolCallStarted(tool, input)];
      case ToolResult(useId, isError, result) =>
        out := out + [ToolCallFinished(LabelOf(toolNames, useId), !OrElse(isError, false), result)];
      case _ =>
    }

    method TranslateBlocks(blocks: seq<Block>, events: seq<Event>) returns (out: seq<Event>)
      modifies this`toolNames
      ensures out == events + BlocksSaid(old(toolNames), blocks)
      ensures toolNames == NamesAfterBlocks(old(toolNames), blocks)
    {
      out := events;
      for i := 0 to |blocks|
        invariant NamesAfterBlocks(toolNames, blocks[i..]) == NamesAfterBlocks(old(toolNames), blocks)
        invariant out + BlocksSaid(toolNames, blocks[i..]) == events + BlocksSaid(old(toolNames), blocks)
      {
        OneMoreBlock(toolNames, blocks, i, out);
        out := TranslateBlock(blocks[i], out);
      }
      assert blocks[|blocks|..] == [];
    }

    method TranslateLine(line: Line, before: seq<Envelope>) returns (out: seq<Envelope>)
      modifies this
      ensures !line.Talks() ==> out == before && unchanged(this)
      ensures line.Talks() ==>
                && out == before + LineAdds(old(started), old(toolNames), line)
                && toolNames == NamesAfterBlocks(old(toolNames), BlocksOf(line))
                && started && lastSessionId == line.sessionId
    {
      out := before;
      if line.speaker == Nobody || line.sessionId.None? {
        return;
      }
      lastSessionId := line.sessionId;
      if !started {
        started := true;
        out := out + [StartOf(line)];
      }
      var events := Spoken(line);
      if line.content.Blocks? {
        events := TranslateBlocks(line.content.blocks, events);
      }
      assert events == Spoken(line) + BlocksSaid(old(toolNames), BlocksOf(line));
      ghost var start := if old(started) then [] else [StartOf(line)];
      assert out == before + start;
      out := Stamp(line, events, out);
      Regroup(before, start, LineOut(old(toolNames), line));
    }
  }

  lemma OneMoreBlock(names: Names, blocks: seq<Block>, i: nat, events: seq<Event>)
    requires i < |blocks|
    ensures NamesAfterBlocks(names, blocks[i..]) == NamesAfterBlocks(NamesAfterBlock(names, blocks[i]), blocks[i + 1..])
    ensures events + BlocksSaid(names, blocks[i..])
            == events + BlockSaid(names, blocks[i]) + BlocksSaid(NamesAfterBlock(names, blocks[i]), blocks[i + 1..])
  {
    assert blocks[i..][1..] == blocks[i + 1..];
    var a, b := BlockSaid(names, blocks[i]), BlocksSaid(NamesAfterBlock(names, blocks[i]), blocks[i + 1..]);
    assert events + (a + b) == events + a + b;
  }

  method Stamp(line: Line, events: seq<Event>, before: seq<Envelope>) returns (out: seq<Envelope>)
    ensures out == before + Stamped(line, events)
  {
    out := before;
    for i := 0 to |events|
      invariant out == before + Stamped(line, events[..i])
    {
      assert events[..i + 1][..i] == events[..i];
      out := out + [EventAt(line, i, events[i])];
    }
    assert events[..|events|] == events;
  }

  lemma EventsOn(names: Names, talk: seq<Line>, line: Line)
    ensures NamesAfter(names, talk + [line]) == NamesAfterBlocks(NamesAfter(names, talk), BlocksOf(line))
    ensures EventsOf(names, talk + [line]) == EventsOf(names, talk) + LineOut(NamesAfter(names, talk), line)
  {
    assert (talk + [line])[..|talk|] == talk;
  }

  lemma AnnouncedOn(talk: seq<Line>, line: Line, announce: bool)
    ensures Announced(talk + [line], announce)
            == if talk != [] then Announced(talk, announce) else Announced([line], announce)
  {
  }

  function Opening(talk: seq<Line>, announce: bool): seq<Envelope> {
    Announced(talk, announce) + EventsOf(map[], talk)
  }

  lemma TalkOn(talk: seq<Line>, line: Line, announce: bool)
    ensures Opening(talk + [line], announce)
            == Opening(talk, announce) + LineAdds(!announce || talk != [], NamesAfter(map[], talk), line)
  {
    if talk == [] {
      NothingMore([line]);
      FirstLineOpens(line, announce);
    } else {
      LaterLineAdds(talk, line, announce);
    }
  }

  lemma LaterLineAdds(talk: seq<Line>, line: Line, announce: bool)
    requires talk != []
    ensures Opening(talk + [line], announce) == Opening(talk, announce) + LineAdds(true, NamesAfter(map[], talk), line)
  {
    var out := LineOut(NamesAfter(map[], talk), line);
    EventsOn(map[], talk, line);
    AnnouncedOn(talk, line, announce);
    NothingMore(out);
    Regroup(Announced(talk, announce), EventsOf(map[], talk), out);
  }

  lemma FirstLineOpens(line: Line, announce: bool)
    ensures Opening([], announce) == []
    ensures Opening([line], announce) == LineAdds(!announce, map[], line)
  {
    NothingMore([line]);
    EventsOn(map[], [], line);
    NothingMore(LineOut(map[], line));
  }

  lemma TalkSnoc(lines: seq<Line>, i: nat)
    requires i < |lines|
    ensures Talk(lines[..i + 1]) == if lines[i].Talks() then Talk(lines[..i]) + [lines[i]] else Talk(lines[..i])
  {
    assert lines[..i + 1][..i] == lines[..i];
  }

  /** The whole state of the translator after some conversation. */
  ghost predicate Stands(state: SessionXlate, out: seq<Envelope>, talk: seq<Line>, announce: bool)
    reads state
  {
    && state.toolNames == NamesAfter(map[], talk)
    && state.started == (!announce || talk != [])
    && state.lastSessionId == (if talk == [] then None else Some(talk[|talk| - 1].Session()))
    && out == Opening(talk, announce)
  }

  method TranslateNext(state: SessionXlate, line: Line, before: seq<Envelope>, ghost talk: seq<Line>,
                       ghost announce: bool)
    returns (out: seq<Envelope>)
    requires Stands(state, before, talk, announce)
    modifies state
    ensures Stands(state, out, if line.Talks() then talk + [line] else talk, announce)
  {
    EventsOn(map[], talk, line);
    TalkOn(talk, line, announce);
    out := state.TranslateLine(line, before);
  }

  method TranslateChunk(lines: seq<Line>, announce: bool) returns (out: seq<Envelope>)
    ensures out == ChunkOut(Talk(lines), announce)
  {
    var state := new SessionXlate(announce);
    out := [];
    for i := 0 to |lines|
      invariant Stands(state, out, Talk(lines[..i]), announce)
    {
      TalkSnoc(lines, i);
      out := TranslateNext(state, lines[i], out, Talk(lines[..i]), announce);
    }
    assert lines[..|lines|] == lines;
    if state.lastSessionId.Some? {
      out := out + [CheckpointOf(state.lastSessionId.value)];
    }
  }

  // ---- files and polls ---------------------------------------------------------------------------------

  /** The length of the complete lines: just past the last newline. */
  function Complete(text: seq<Byte>): (n: nat)
    ensures n <= |text|
  {
    if text == [] || text[|text| - 1] == NEWLINE then |text| else Complete(text[..|text| - 1])
  }

  function Parsed(parse: Parser, text: seq<Byte>): seq<Line> {
    match parse(text)
    case Some(line) => [line]
    case None => []
  }

  function LinesOf(parse: Parser, text: seq<Byte>): seq<Line>
    decreases |text|
  {
    if text == [] then [] else Parsed(parse, text[..FirstLine(text)]) + LinesOf(parse, AfterFirstLine(text))
  }

  function AfterFirstLine(text: seq<Byte>): (rest: seq<Byte>)
    requires text != []
    ensures |rest| < |text|
  {
    if FirstLine(text) < |text| then text[FirstLine(text) + 1..] else []
  }

  function FirstLine(text: seq<Byte>): (n: nat)
    ensures n <= |text| && NEWLINE !in text[..n] && (n < |text| ==> text[n] == NEWLINE)
  {
    if text == [] || text[0] == NEWLINE then 0
    else
      var n := FirstLine(text[1..]);
      assert text[..n + 1] == [text[0]] + text[1..][..n];
      n + 1
  }

  /** The lines of conversation in a text. */
  function Conversation(parse: Parser, text: seq<Byte>): seq<Line> {
    Talk(LinesOf(parse, text))
  }

  /** Where a poll begins: a file shorter than the offset was replaced and is read afresh. */
  function From(file: seq<Byte>, offset: nat): (start: nat)
    ensures start <= |file|
  {
    if offset > |file| then 0 else offset
  }

  /** The text a poll takes in: the complete lines past the offset. */
  function Taken(file: seq<Byte>, offset: nat): seq<Byte> {
    var rest := file[From(file, offset)..]; rest[..Complete(rest)]
  }

  function OffsetAfter(file: seq<Byte>, offset: nat): nat {
    From(file, offset) + |Taken(file, offset)|
  }

  /** What a poll hands to the ingest. */
  function PollOut(parse: Parser, file: seq<Byte>, offset: nat): seq<Envelope> {
    TextOut(parse, Taken(file, offset), From(file, offset) == 0)
  }

  method LastNewline(text: seq<Byte>) returns (pos: Option<nat>)
    ensures pos.None? ==> Complete(text) == 0
    ensures pos.Some? ==> pos.value < |text| && Complete(text) == pos.value + 1
  {
    var i: nat := |text|;
    assert text[..i] == text;
    while i > 0
      invariant i <= |text| && Complete(text[..i]) == Complete(text)
    {
      assert text[..i][..i - 1] == text[..i - 1];
      if text[i - 1] == NEWLINE {
        return Some(i - 1);
      }
      i := i - 1;
    }
    pos := None;
  }

  /** The lines of a text that parse. */
  method ParseLines(parse: Parser, text: seq<Byte>) returns (lines: seq<Line>)
    ensures lines == LinesOf(parse, text)
  {
    lines := [];
    var rest := text;
    while rest != []
      invariant lines + LinesOf(parse, rest) == LinesOf(parse, text)
      decreases |rest|
    {
      var line := Parsed(parse, rest[..FirstLine(rest)]);
      var after := AfterFirstLine(rest);
      Regroup(lines, line, LinesOf(parse, after));
      lines := lines + line;
      rest := after;
    }
  }

  /** The translation of a text. */
  function TextOut(parse: Parser, text: seq<Byte>, announce: bool): seq<Envelope> {
    ChunkOut(Conversation(parse, text), announce)
  }

  lemma NoText(parse: Parser, announce: bool)
    ensures TextOut(parse, [], announce) == []
  {
    assert Talk([]) == [];
  }

  method TranslateText(parse: Parser, text: seq<Byte>, announce: bool) returns (out: seq<Envelope>)
    ensures out == TextOut(parse, text, announce)
  {
    var lines := ParseLines(parse, text);
    out := TranslateChunk(lines, announce);
  }

  /** One incremental read of a file. */
  method ReadFromOffset(parse: Parser, file: seq<Byte>, offset: nat)
    returns (envelopes: seq<Envelope>, next: nat)
    ensures envelopes == PollOut(parse, file, offset) && next == OffsetAfter(file, offset)
  {
    var len := |file|;
    var start := if offset > len then 0 else offset;
    var buf := file[start..];
    NoText(parse, start == 0);
    if start == len {
      assert Taken(file, offset) == [];
      return [], len;
    }
    var pos := LastNewline(buf);
    if pos.None? {
      assert Taken(file, offset) == [];
      return [], start;
    }
    var consumed := pos.value + 1;
    assert Taken(file, offset) == buf[..consumed];
    envelopes := TranslateText(parse, buf[..consumed], start == 0);
    next := start + consumed;
  }
}
