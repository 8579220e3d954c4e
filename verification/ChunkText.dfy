/** What the lines of a Claude Code conversation say comes out as it was said: who said a plain text, what the text
    blocks say together, the calls and the results, line by line, in order and at the line's own time. */
module ChunkText {
  import opened Basics
  import opened Events
  import opened EventIds
  import opened Text
  import opened ClaudeCode
  import opened Projections
  import Tail

  // ---- the reference, on speaker and content ---------------------------------------------------------------

  predicate InConversation(line: Line) {
    line.sessionId.Some? && line.speaker in {User, Assistant}
  }

  function TimeOf(line: Line): string {
    match line.timestamp
    case Some(ts) => ts
    case None => ""
  }

  function TextIn(b: Block): seq<string> {
    match b
    case TextBlock(Some(text)) => [text]
    case _ => []
  }

  function ThoughtIn(b: Block): seq<string> {
    match b
    case Thinking(Some(text)) => [text]
    case _ => []
  }

  /** The user's plain text is a prompt and the assistant's an answer; text blocks, whoever's they are, are joined to
      one answer, unless it is blank. */
  function TextTells(line: Line): seq<Event> {
    match line.content
    case NoContent => []
    case Plain(text) => if line.speaker == User then [UserPrompt(text)] else [ModelResponse(text)]
    case Blocks(blocks) =>
      if Blank(Join(Gather(TextIn, blocks))) then [] else [ModelResponse(Join(Gather(TextIn, blocks)))]
  }

  function WorkIn(b: Block): seq<Event> {
    match b
    case ToolUse(_, name, input) => [ToolCallStarted(if name.Some? then name.value else "tool", input)]
    case ToolResult(_, isError, result) => [Returned(isError != Some(true), result)]
    case _ => []
  }

  /** The calls and results, a result being fine unless it says it is an error. */
  function WorkTells(blocks: seq<Block>): seq<Event>
    decreases |blocks|
  {
    if blocks == [] then [] else WorkIn(blocks[0]) + WorkTells(blocks[1..])
  }

  function LineTells(line: Line): seq<Told> {
    if InConversation(line) then
      AllAt(TimeOf(line), TextTells(line) + if line.content.Blocks? then WorkTells(line.content.blocks) else [])
    else []
  }

  // ---- what a line says ------------------------------------------------------------------------------------

  lemma {:induction false} PassagesAreTheTexts(blocks: seq<Block>)
    ensures Passages(blocks) == Gather(TextIn, blocks) && Thoughts(blocks) == Gather(ThoughtIn, blocks)
  {
    if blocks != [] {
      PassagesAreTheTexts(blocks[..|blocks| - 1]);
    }
  }

  lemma {:induction false} BlocksTell(names: Names, ts: string, blocks: seq<Block>)
    ensures AllAt(ts, BlocksSaid(names, blocks)) == AllAt(ts, WorkTells(blocks))
    decreases |blocks|
  {
    if blocks != [] {
      var later := NamesAfterBlock(names, blocks[0]);
      BlocksTell(later, ts, blocks[1..]);
      AllAtOfTwo(ts, BlockSaid(names, blocks[0]), BlocksSaid(later, blocks[1..]));
      AllAtOfTwo(ts, WorkIn(blocks[0]), WorkTells(blocks[1..]));
      BlockTells(names, ts, blocks[0]);
    }
  }

  lemma BlockTells(names: Names, ts: string, b: Block)
    ensures AllAt(ts, BlockSaid(names, b)) == AllAt(ts, WorkIn(b))
  {
  }

  lemma LineOutTells(names: Names, line: Line)
    requires InConversation(line)
    ensures Tellings(LineOut(names, line)) == LineTells(line)
  {
    var ts, work := line.Ts(), BlocksSaid(names, BlocksOf(line));
    Tail.StampedEvents(line, Spoken(line) + work);
    assert Tellings(LineOut(names, line)) == AllAt(ts, Spoken(line) + work);
    PassagesAreTheTexts(BlocksOf(line));
    BlocksTell(names, ts, BlocksOf(line));
    AllAtOfTwo(ts, Spoken(line), work);
    AllAtOfTwo(ts, TextTells(line), WorkTells(BlocksOf(line)));
  }

  // ---- the lines of a text ---------------------------------------------------------------------------------

  function Ended(line: seq<Byte>): seq<Byte> {
    line + [10]
  }

  /** What the lines that parse contain. */
  function AllParsed(parse: Parser, texts: seq<seq<Byte>>): seq<Line> {
    if texts == [] then []
    else
      AllParsed(parse, texts[..|texts| - 1])
      + match parse(texts[|texts| - 1])
        case Some(line) => [line]
        case None => []
  }

  lemma OneLineIsParsed(parse: Parser, text: seq<Byte>)
    requires 10 !in text
    ensures LinesOf(parse, Ended(text)) == Parsed(parse, text)
  {
    var n := |text|;
    assert Ended(text)[..n] == text && Ended(text)[n + 1..] == [];
    Tail.FirstLineIsUnique(Ended(text), n);
    NothingMore(Parsed(parse, text));
  }

  lemma {:induction false} GatheredLinesEnd(texts: seq<seq<Byte>>)
    ensures Tail.EndsLine(Gather(Ended, texts))
  {
  }

  /** A text is read line by line, each parsed by itself. */
  lemma {:induction false} LinesAreParsed(parse: Parser, texts: seq<seq<Byte>>)
    requires forall i :: 0 <= i < |texts| ==> 10 !in texts[i]
    ensures LinesOf(parse, Gather(Ended, texts)) == AllParsed(parse, texts)
  {
    if texts != [] {
      var before, last := texts[..|texts| - 1], texts[|texts| - 1];
      LinesAreParsed(parse, before);
      GatheredLinesEnd(before);
      Tail.LinesAfter(parse, Gather(Ended, before), Ended(last));
      OneLineIsParsed(parse, last);
    }
  }

  // ---- what all lines say ----------------------------------------------------------------------------------

  lemma {:induction false} TalkTells(lines: seq<Line>)
    ensures Tellings(EventsOf(map[], Talk(lines))) == Gather(LineTells, lines)
  {
    if lines != [] {
      var before, last := lines[..|lines| - 1], lines[|lines| - 1];
      TalkTells(before);
      if InConversation(last) {
        EventsOn(map[], Talk(before), last);
        LineOutTells(NamesAfter(map[], Talk(before)), last);
        TellingsOfTwo(EventsOf(map[], Talk(before)), LineOut(NamesAfter(map[], Talk(before)), last));
      } else {
        NothingMore(Talk(before));
        NothingMore(Gather(LineTells, before));
      }
    }
  }

  /** The start of a session is its first line's. */
  function StartTold(talk: seq<Line>, announce: bool): seq<Told>
    requires talk != []
  {
    if announce then [Told(TimeOf(talk[0]), SessionStarted(talk[0].cwd))] else []
  }

  function RequestTold(talk: seq<Line>): seq<Told>
    requires talk != []
  {
    [Told("", CheckpointRequested(Some("claude-code session " + OrElse(talk[|talk| - 1].sessionId, ""))))]
  }

  lemma EndsAreTold(talk: seq<Line>, announce: bool)
    requires talk != []
    ensures Tellings(Announced(talk, announce)) == StartTold(talk, announce)
    ensures Tellings([CheckpointOf(talk[|talk| - 1].Session())]) == RequestTold(talk)
  {
  }

  /** What comes out of any lines is the session's start, if there is conversation and it is to be announced, then what
      the lines tell, in order and in time, and then a request for a checkpoint. */
  lemma ChunksComeOut(lines: seq<Line>, announce: bool)
    ensures var talk := Talk(lines);
            Tellings(ChunkOut(talk, announce))
            == if talk == [] then [] else StartTold(talk, announce) + Gather(LineTells, lines) + RequestTold(talk)
  {
    var talk := Talk(lines);
    if talk != [] {
      var head, events, last := Announced(talk, announce), EventsOf(map[], talk),
          [CheckpointOf(talk[|talk| - 1].Session())];
      TalkTells(lines);
      EndsAreTold(talk, announce);
      TellingsOfTwo(head, events);
      TellingsOfTwo(head + events, last);
    }
  }

  /** A line's events are of its session, are numbered after it and say so, and its thinking rides on the first. */
  lemma EventsOfALine(names: Names, line: Line, i: nat)
    requires i < |LineOut(names, line)|
    ensures var env := LineOut(names, line)[i];
            var id, thought := line.BaseId() + "#" + Decimal(i), Join(Gather(ThoughtIn, BlocksOf(line)));
            && env.hostId == "claude-code" && env.sessionId == OrElse(line.sessionId, "") && env.eventId == Some(id)
            && env.importedFrom == Some(ImportedFrom("claude-code", id, TimeOf(line)))
            && env.reasoning == if i == 0 && thought != "" then Some(Reasoning(thought, ReasoningSource.Thinking))
                                else None
  {
    Tail.StampedEvents(line, Spoken(line) + BlocksSaid(names, BlocksOf(line)));
    PassagesAreTheTexts(BlocksOf(line));
  }

  /** A line is named by its own id or by its session, time and speaker; the start after the line that opens the
      session, and the request after the session. */
  lemma IdsOfALine(line: Line)
    ensures line.uuid.Some? ==> line.BaseId() == line.uuid.value
    ensures line.uuid.None? && line.speaker == User ==>
              line.BaseId() == "cc:" + OrElse(line.sessionId, "") + ":" + TimeOf(line) + ":" + "user"
    ensures line.uuid.None? && line.speaker == Assistant ==>
              line.BaseId() == "cc:" + OrElse(line.sessionId, "") + ":" + TimeOf(line) + ":" + "assistant"
    ensures ClaudeCode.StartOf(line).eventId == Some(line.BaseId() + "#start")
    ensures CheckpointOf(line.Session()).eventId == Some(OrElse(line.sessionId, "") + "#checkpoint")
    ensures ClaudeCode.StartOf(line).sessionId == CheckpointOf(line.Session()).sessionId == OrElse(line.sessionId, "")
  {
  }
}
