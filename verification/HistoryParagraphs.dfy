/** What an Aider history says comes out word for word: each run of prompt lines is one prompt, each run of prose one
    answer, and each edit an edit, in the order in which they stand in the file. */
module HistoryParagraphs {
  import opened Basics
  import opened Events
  import opened Text
  import opened Aider
  import opened Projections

  // ---- the reference, on lines -----------------------------------------------------------------------------

  datatype Paragraph = Asked(parts: seq<string>) | Answered(parts: seq<string>) | Edited(path: string)

  /** The lines end in a prompt. */
  predicate Asking(lines: seq<string>) {
    lines != [] && KindOf(lines[|lines| - 1]).Prompt?
  }

  /** The lines end in prose, or in blank lines behind it. */
  predicate Answering(lines: seq<string>) {
    lines != [] &&
    match KindOf(lines[|lines| - 1])
    case Prose => true
    case Gap => Answering(lines[..|lines| - 1])
    case _ => false
  }

  /** The last paragraph gets another part if it goes on, and otherwise a new one begins. */
  function Continued(ps: seq<Paragraph>, goesOn: bool, begin: Paragraph, part: string): seq<Paragraph>
    requires !begin.Edited?
  {
    if goesOn && ps != [] && !ps[|ps| - 1].Edited? then
      ps[..|ps| - 1] + [ps[|ps| - 1].(parts := ps[|ps| - 1].parts + [part])]
    else ps + [begin]
  }

  /** Prompt lines that follow each other make one prompt; lines of prose, with the blank lines between them, make one
      answer; anything else ends both. */
  function Paragraphs(lines: seq<string>): seq<Paragraph> {
    if lines == [] then []
    else
      var before, line := lines[..|lines| - 1], lines[|lines| - 1];
      var ps := Paragraphs(before);
      match KindOf(line)
      case Prompt(text) => Continued(ps, Asking(before), Asked([text]), text)
      case Prose => Continued(ps, Answering(before), Answered([line]), line)
      case Gap => if Answering(before) then Continued(ps, true, Answered([""]), "") else ps
      case Edit(path) => ps + [Edited(path)]
      case _ => ps
  }

  /** What a paragraph says, if it is not blank: a prompt as it stands, an answer without the white space around it. */
  function Says(p: Paragraph): seq<Event> {
    match p
    case Asked(parts) => if Blank(Join(parts)) then [] else [UserPrompt(Join(parts))]
    case Answered(parts) => if Blank(Join(parts)) then [] else [ModelResponse(Trim(Join(parts)))]
    case Edited(path) => [FileWritten(path)]
  }

  /** The events that say something. */
  function Content(env: Envelope): seq<Event> {
    if env.event.IsContent() then [env.event] else []
  }

  // ---- what has been said, and what waits ------------------------------------------------------------------

  function Waiting(st: State): seq<Paragraph> {
    (if st.user == [] then [] else [Asked(st.user)]) + (if st.model == [] then [] else [Answered(st.model)])
  }

  /** What waits is the last paragraph, if it can go on, and the paragraphs before it have been said. */
  predicate Follows(st: State, lines: seq<string>, said: seq<Paragraph>) {
    && Ready(st) && (st.user == [] || st.model == [])
    && Paragraphs(lines) == said + Waiting(st) && Gather(Content, st.out) == Gather(Says, said)
    && (st.user != [] <==> Asking(lines)) && (st.model != [] <==> Answering(lines))
  }

  lemma EmitSays(st: State, event: Event)
    requires st.session.Some?
    ensures Gather(Content, Emit(st, event).out)
            == Gather(Content, st.out) + if event.IsContent() then [event] else []
  {
    GatherSnoc(Content, st.out, EnvelopeIn(st.session.value, st.seqNo, st.ts, event));
  }

  lemma FlushUserSays(st: State)
    requires Ready(st)
    ensures Gather(Content, FlushUser(st).out)
            == Gather(Content, st.out) + if st.user == [] then [] else Says(Asked(st.user))
  {
    if st.user != [] && !Blank(Join(st.user)) {
      EmitSays(st.(user := []), UserPrompt(Join(st.user)));
    }
  }

  lemma FlushModelSays(st: State)
    requires Ready(st)
    ensures Gather(Content, FlushModel(st).out)
            == Gather(Content, st.out) + if st.model == [] then [] else Says(Answered(st.model))
  {
    if st.model != [] && !Blank(Join(st.model)) {
      EmitSays(st.(model := []), ModelResponse(Trim(Join(st.model))));
    }
  }

  predicate AllSaid(out: seq<Envelope>, lines: seq<string>) {
    Gather(Content, out) == Gather(Says, Paragraphs(lines))
  }

  /** Flushing says all that waits. */
  lemma FlushSaysAll(st: State, lines: seq<string>, said: seq<Paragraph>)
    requires Follows(st, lines, said)
    ensures AllSaid(Flush(st).out, lines) && Flush(st).user == [] && Flush(st).model == []
    ensures st.model == [] ==> AllSaid(FlushUser(st).out, lines)
    ensures st.user == [] ==> AllSaid(FlushModel(st).out, lines)
  {
    FlushUserSays(st);
    FlushModelSays(FlushUser(st));
    FlushModelSays(st);
    if st.user != [] {
      GatherSnoc(Says, said, Asked(st.user));
      NothingMore([Asked(st.user)]);
    } else if st.model != [] {
      GatherSnoc(Says, said, Answered(st.model));
      NothingMore([Answered(st.model)]);
    } else {
      NothingMore(said);
    }
  }

  /** Nothing waits, and all has been said. */
  lemma NothingWaits(st: State, lines: seq<string>)
    requires st.user == [] && st.model == [] && AllSaid(st.out, lines) && !Asking(lines) && !Answering(lines)
    ensures Follows(st, lines, Paragraphs(lines))
  {
    NothingMore(Paragraphs(lines));
  }

  lemma OpenSays(source: string, st: State, raw: string)
    requires Ready(st)
    ensures Gather(Content, Open(source, st, raw).out) == Gather(Content, Flush(st).out)
    ensures Open(source, st, raw).user == [] && Open(source, st, raw).model == []
  {
    var flushed := Flush(st);
    var out := if flushed.session.Some? then Emit(flushed, SessionEnded).out else flushed.out;
    if flushed.session.Some? {
      EmitSays(flushed, SessionEnded);
    }
    var begun := State(flushed.idx + 1, Some(SessionName(source, flushed.idx + 1)), IsoTs(raw), 0, [], [], out);
    EmitSays(begun, SessionStarted(None));
  }

  lemma EnsureSays(source: string, st: State)
    requires Ready(st)
    ensures Gather(Content, Ensure(source, st).out) == Gather(Content, st.out)
    ensures Ensure(source, st).user == st.user && Ensure(source, st).model == st.model
  {
    if st.session.None? {
      OpenSays(source, st, "");
    }
  }

  lemma LastLine(lines: seq<string>, line: string)
    ensures (lines + [line])[..|lines|] == lines && (lines + [line])[|lines|] == line
  {
  }

  lemma LastWaits(said: seq<Paragraph>, p: Paragraph, part: string)
    requires !p.Edited?
    ensures forall begin: Paragraph :: !begin.Edited? ==>
              Continued(said + [p], true, begin, part) == said + [p.(parts := p.parts + [part])]
  {
  }

  /** What one more line does to the paragraphs, and to whether they go on. */
  lemma NextParagraph(lines: seq<string>, line: string)
    ensures var ps, more, kind := Paragraphs(lines), lines + [line], KindOf(line);
            && (kind.Prompt? ==> Paragraphs(more) == Continued(ps, Asking(lines), Asked([kind.text]), kind.text))
            && (kind.Prose? ==> Paragraphs(more) == Continued(ps, Answering(lines), Answered([line]), line))
            && (kind.Gap? && Answering(lines) ==> Paragraphs(more) == Continued(ps, true, Answered([""]), ""))
            && (kind.Gap? && !Answering(lines) ==> Paragraphs(more) == ps)
            && (kind.Edit? ==> Paragraphs(more) == ps + [Edited(kind.path)])
            && (kind.Header? || kind.Console? ==> Paragraphs(more) == ps)
    ensures var more, kind := lines + [line], KindOf(line);
            Asking(more) == kind.Prompt? && Answering(more) == (kind.Prose? || (kind.Gap? && Answering(lines)))
  {
    LastLine(lines, line);
  }

  /** A part goes to what waits, if it goes on, and otherwise begins something new. */
  lemma PartWaits(st: State, lines: seq<string>, said: seq<Paragraph>, begin: Paragraph, part: string)
    returns (nowSaid: seq<Paragraph>)
    requires Follows(st, lines, said) && !begin.Edited? && begin.parts == [part]
    ensures begin.Asked? ==>
              Continued(Paragraphs(lines), Asking(lines), begin, part) == nowSaid + [Asked(st.user + [part])]
    ensures begin.Answered? ==>
              Continued(Paragraphs(lines), Answering(lines), begin, part) == nowSaid + [Answered(st.model + [part])]
    ensures nowSaid == if (begin.Asked? && Asking(lines)) || (begin.Answered? && Answering(lines)) then said
                       else Paragraphs(lines)
  {
    NothingMore([part]);
    if begin.Asked? && Asking(lines) {
      NothingMore([Asked(st.user)]);
      LastWaits(said, Asked(st.user), part);
      nowSaid := said;
    } else if begin.Answered? && Answering(lines) {
      NothingMore([Answered(st.model)]);
      LastWaits(said, Answered(st.model), part);
      nowSaid := said;
    } else {
      nowSaid := Paragraphs(lines);
    }
  }

  lemma AsksNext(st: State, lines: seq<string>, said: seq<Paragraph>)
    requires Ready(st) && st.user != [] && st.model == [] && Paragraphs(lines) == said + [Asked(st.user)]
    requires Gather(Content, st.out) == Gather(Says, said) && Asking(lines) && !Answering(lines)
    ensures Follows(st, lines, said)
  {
    NothingMore([Asked(st.user)]);
  }

  lemma AnswersNext(st: State, lines: seq<string>, said: seq<Paragraph>)
    requires Ready(st) && st.model != [] && st.user == [] && Paragraphs(lines) == said + [Answered(st.model)]
    requires Gather(Content, st.out) == Gather(Says, said) && Answering(lines) && !Asking(lines)
    ensures Follows(st, lines, said)
  {
    NothingMore([Answered(st.model)]);
  }

  lemma PromptFollows(source: string, st: State, lines: seq<string>, line: string, said: seq<Paragraph>)
    returns (nowSaid: seq<Paragraph>)
    requires Follows(st, lines, said) && KindOf(line).Prompt?
    ensures Follows(OnLine(source, st, line), lines + [line], nowSaid)
  {
    NextParagraph(lines, line);
    FlushSaysAll(st, lines, said);
    EnsureSays(source, FlushModel(st));
    nowSaid := PartWaits(st, lines, said, Asked([KindOf(line).text]), KindOf(line).text);
    AsksNext(OnLine(source, st, line), lines + [line], nowSaid);
  }

  lemma ProseFollows(source: string, st: State, lines: seq<string>, line: string, said: seq<Paragraph>)
    returns (nowSaid: seq<Paragraph>)
    requires Follows(st, lines, said) && KindOf(line).Prose?
    ensures Follows(OnLine(source, st, line), lines + [line], nowSaid)
  {
    NextParagraph(lines, line);
    FlushSaysAll(st, lines, said);
    EnsureSays(source, FlushUser(st));
    nowSaid := PartWaits(st, lines, said, Answered([line]), line);
    AnswersNext(OnLine(source, st, line), lines + [line], nowSaid);
  }

  lemma GapFollows(source: string, st: State, lines: seq<string>, line: string, said: seq<Paragraph>)
    returns (nowSaid: seq<Paragraph>)
    requires Follows(st, lines, said) && KindOf(line).Gap?
    ensures Follows(OnLine(source, st, line), lines + [line], nowSaid)
  {
    NextParagraph(lines, line);
    FlushSaysAll(st, lines, said);
    if Answering(lines) {
      nowSaid := PartWaits(st, lines, said, Answered([""]), "");
      AnswersNext(OnLine(source, st, line), lines + [line], nowSaid);
    } else {
      NothingWaits(OnLine(source, st, line), lines + [line]);
      nowSaid := Paragraphs(lines);
    }
  }

  lemma EditIsSaid(st: State, lines: seq<string>, line: string, path: string)
    requires st.user == [] && st.model == [] && st.session.Some? && AllSaid(st.out, lines)
    requires KindOf(line) == Edit(path)
    ensures Follows(Emit(st, FileWritten(path)), lines + [line], Paragraphs(lines + [line]))
  {
    NextParagraph(lines, line);
    EmitSays(st, FileWritten(path));
    GatherSnoc(Says, Paragraphs(lines), Edited(path));
    NothingWaits(Emit(st, FileWritten(path)), lines + [line]);
  }

  lemma EditFollows(source: string, st: State, lines: seq<string>, line: string, said: seq<Paragraph>)
    requires Follows(st, lines, said) && KindOf(line).Edit?
    ensures Follows(OnLine(source, st, line), lines + [line], Paragraphs(lines + [line]))
  {
    FlushSaysAll(st, lines, said);
    EnsureSays(source, Flush(st));
    EditIsSaid(Ensure(source, Flush(st)), lines, line, KindOf(line).path);
  }

  lemma HeaderFollows(source: string, st: State, lines: seq<string>, line: string, said: seq<Paragraph>)
    requires Follows(st, lines, said) && KindOf(line).Header?
    ensures Follows(OnLine(source, st, line), lines + [line], Paragraphs(lines + [line]))
  {
    NextParagraph(lines, line);
    FlushSaysAll(st, lines, said);
    OpenSays(source, st, KindOf(line).ts);
    NothingWaits(Open(source, st, KindOf(line).ts), lines + [line]);
  }

  lemma ConsoleFollows(source: string, st: State, lines: seq<string>, line: string, said: seq<Paragraph>)
    requires Follows(st, lines, said) && KindOf(line).Console?
    ensures Follows(OnLine(source, st, line), lines + [line], Paragraphs(lines + [line]))
  {
    NextParagraph(lines, line);
    FlushSaysAll(st, lines, said);
    NothingWaits(Flush(st), lines + [line]);
  }

  lemma {:induction false} BodyFollows(source: string, lines: seq<string>) returns (said: seq<Paragraph>)
    ensures Follows(Body(source, lines), lines, said)
  {
    if lines == [] {
      said := [];
    } else {
      var before, line := lines[..|lines| - 1], lines[|lines| - 1];
      var st := Body(source, before);
      said := BodyFollows(source, before);
      SplitLast(lines);
      match KindOf(line)
      case Prompt(_) => said := PromptFollows(source, st, before, line, said);
      case Prose => said := ProseFollows(source, st, before, line, said);
      case Gap => said := GapFollows(source, st, before, line, said);
      case Edit(_) =>
        EditFollows(source, st, before, line, said);
        said := Paragraphs(lines);
      case Header(_) =>
        HeaderFollows(source, st, before, line, said);
        said := Paragraphs(lines);
      case Console =>
        ConsoleFollows(source, st, before, line, said);
        said := Paragraphs(lines);
    }
  }

  lemma FinishSays(st: State)
    requires Ready(st)
    ensures Gather(Content, Finish(st).out) == Gather(Content, Flush(st).out)
  {
    var flushed := Flush(st);
    match flushed.session
    case Some(session) => EmitSays(flushed, CheckpointRequested(Some("aider session " + session)));
    case None =>
  }

  /** The content of a history is what its paragraphs say, in order and word for word. */
  lemma ParagraphsComeOut(source: string, lines: seq<string>)
    ensures Gather(Content, Translation(source, lines)) == Gather(Says, Paragraphs(lines))
  {
    var said := BodyFollows(source, lines);
    FlushSaysAll(Body(source, lines), lines, said);
    FinishSays(Body(source, lines));
  }
}
