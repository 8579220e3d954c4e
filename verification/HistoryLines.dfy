/** How the lines of an Aider history read, and the times their sessions get. */
module HistoryLines {
  import opened Basics
  import opened Events
  import opened Text
  import opened Aider
  import opened EventIds

  // ---- how a line reads ------------------------------------------------------------------------------------

  lemma {:induction false} SpaceBefore(space: string, rest: string)
    requires Blank(space) && rest != "" && !IsSpace(rest[0])
    ensures TrimStart(space + rest) == rest
  {
    if space == "" {
      NothingMore(rest);
    } else {
      assert (space + rest)[1..] == space[1..] + rest;
      SpaceBefore(space[1..], rest);
    }
  }

  lemma After(prefix: string, rest: string)
    ensures StripPrefix(prefix + rest, prefix) == Some(rest)
  {
    assert (prefix + rest)[|prefix|..] == rest;
  }

  /** A header may be indented, and its time is what follows. */
  lemma HeaderLines(space: string, rest: string)
    requires Blank(space)
    ensures KindOf(space + "# aider chat started at" + rest) == Header(Trim(rest))
  {
    var mark := "# aider chat started at";
    Regroup(space, mark, rest);
    assert (mark + rest)[0] == '#';
    SpaceBefore(space, mark + rest);
    After(mark, rest);
  }

  /** A prompt line starts with four hashes at its very beginning and, mostly, a space, which is no part of the text. */
  lemma PromptLines(text: string)
    ensures KindOf("#### " + text) == Prompt(text)
    ensures text == "" || text[0] != ' ' ==> KindOf("####" + text) == Prompt(text)
  {
    NoHeader("####" + text);
    NoHeader("#### " + text);
    After("####", text);
    After("####", " " + text);
    After(" ", text);
    assert "#### " + text == "####" + (" " + text);
  }

  lemma NoHeader(line: string)
    requires "####" <= line
    ensures StripPrefix(TrimStart(line), "# aider chat started at").None?
  {
    assert line[0] == '#' && line[1] == '#';
    assert "# aider chat started at"[1] == ' ';
  }

  lemma QuoteLine(space: string, quoted: string)
    requires Blank(space)
    ensures KindOf(space + ">" + quoted)
            == match StripPrefix(OrElse(StripPrefix(quoted, " "), quoted), "Applied edit to ")
               case Some(path) => Edit(Trim(path))
               case None => Console
  {
    var line := space + ">" + quoted;
    Regroup(space, ">", quoted);
    assert (">" + quoted)[0] == '>';
    SpaceBefore(space, ">" + quoted);
    After(">", quoted);
    assert "# aider chat started at"[0] == '#';
    assert line[0] == '>' || IsSpace(line[0]);
  }

  const EDIT := "Applied edit to "

  /** A quoted line reports an edit if it says so, with or without a space before. */
  lemma EditLines(space: string, path: string)
    requires Blank(space)
    ensures KindOf(space + ">" + (" " + (EDIT + path))) == Edit(Trim(path))
    ensures KindOf(space + ">" + (EDIT + path)) == Edit(Trim(path))
  {
    QuoteLine(space, " " + (EDIT + path));
    QuoteLine(space, EDIT + path);
    After(" ", EDIT + path);
    After(EDIT, path);
    assert (EDIT + path)[0] == 'A';
  }

  lemma Behind(a: string, prefix: string, s: string)
    ensures prefix <= s ==> a + prefix <= a + s
  {
    if prefix <= s {
      PrefixAndRest(prefix, s);
      Regroup(a, prefix, s[|prefix|..]);
    }
  }

  /** And is a console line otherwise. */
  lemma ConsoleLines(space: string, quoted: string)
    requires Blank(space) && !(EDIT <= quoted) && !(" " + EDIT <= quoted)
    ensures KindOf(space + ">" + quoted) == Console
  {
    QuoteLine(space, quoted);
    if StripPrefix(quoted, " ").Some? {
      Behind(" ", EDIT, StripPrefix(quoted, " ").value);
    }
  }

  /** Everything else is a gap if it is blank, and prose otherwise. */
  lemma OtherLines(line: string)
    requires !("####" <= line)
    requires forall space, rest :: Blank(space) && line == space + rest ==>
               !(">" <= rest) && !("# aider chat started at" <= rest)
    ensures KindOf(line) == if Blank(line) then Gap else Prose
  {
    var i := TrimStartCuts(line);
    assert line == line[..i] + line[i..];
  }

  // ---- the times of the sessions ---------------------------------------------------------------------------

  /** The header texts of the sessions, in order; what is said before any header opens one without a text. */
  function Openings(lines: seq<string>): seq<string> {
    if lines == [] then []
    else
      var before := Openings(lines[..|lines| - 1]);
      match KindOf(lines[|lines| - 1])
      case Header(ts) => before + [ts]
      case Console => before
      case Gap => before
      case _ => if before == [] then [""] else before
  }

  predicate OfSession(source: string, env: Envelope, k: nat, opening: string) {
    env.sessionId == source + "-s" + Decimal(k + 1) && env.ts == IsoTs(opening)
  }

  /** The event is Aider's, says so, and is of one of the sessions, at the time of its header. */
  ghost predicate TimedBy(source: string, env: Envelope, openings: seq<string>) {
    && env.hostId == "aider" && env.importedFrom == Some(ImportedFrom("aider", OrElse(env.eventId, ""), env.ts))
    && exists k :: 0 <= k < |openings| && OfSession(source, env, k, openings[k])
  }

  ghost predicate AllTimed(source: string, out: seq<Envelope>, openings: seq<string>) {
    forall i :: 0 <= i < |out| ==> TimedBy(source, out[i], openings)
  }

  ghost predicate InTime(source: string, st: State, openings: seq<string>) {
    && st.idx == |openings| && AllTimed(source, st.out, openings)
    && if openings == [] then st.session.None?
       else st.session == Some(SessionName(source, st.idx)) && st.ts == IsoTs(openings[|openings| - 1])
  }

  lemma EmitInTime(source: string, st: State, openings: seq<string>, event: Event)
    requires InTime(source, st, openings) && st.session.Some?
    ensures InTime(source, Emit(st, event), openings)
  {
    var env := EnvelopeIn(st.session.value, st.seqNo, st.ts, event);
    assert OfSession(source, env, |openings| - 1, openings[|openings| - 1]);
    assert TimedBy(source, env, openings);
  }

  lemma FlushInTime(source: string, st: State, openings: seq<string>)
    requires Ready(st) && InTime(source, st, openings)
    ensures InTime(source, FlushUser(st), openings) && InTime(source, FlushModel(st), openings)
    ensures InTime(source, Flush(st), openings)
  {
    if st.session.Some? {
      EmitInTime(source, st.(user := []), openings, UserPrompt(Join(st.user)));
      EmitInTime(source, st.(model := []), openings, ModelResponse(Trim(Join(st.model))));
      var mid := FlushUser(st);
      EmitInTime(source, mid.(model := []), openings, ModelResponse(Trim(Join(mid.model))));
    }
  }

  lemma OneMoreOpening(source: string, out: seq<Envelope>, openings: seq<string>, raw: string)
    requires AllTimed(source, out, openings)
    ensures AllTimed(source, out, openings + [raw])
  {
    forall i | 0 <= i < |out| ensures TimedBy(source, out[i], openings + [raw]) {
      var k :| 0 <= k < |openings| && OfSession(source, out[i], k, openings[k]);
      assert (openings + [raw])[k] == openings[k];
    }
  }

  lemma BeginInTime(source: string, idx: nat, out: seq<Envelope>, openings: seq<string>, raw: string)
    requires idx == |openings| && AllTimed(source, out, openings)
    ensures InTime(source, Begin(source, idx, IsoTs(raw), out), openings + [raw])
  {
    OneMoreOpening(source, out, openings, raw);
    var st := State(idx + 1, Some(SessionName(source, idx + 1)), IsoTs(raw), 0, [], [], out);
    EmitInTime(source, st, openings + [raw], SessionStarted(None));
  }

  lemma OpenInTime(source: string, st: State, openings: seq<string>, raw: string)
    requires Ready(st) && InTime(source, st, openings)
    ensures InTime(source, Open(source, st, raw), openings + [raw])
  {
    FlushInTime(source, st, openings);
    var flushed := Flush(st);
    if flushed.session.Some? {
      EmitInTime(source, flushed, openings, SessionEnded);
      BeginInTime(source, flushed.idx, Emit(flushed, SessionEnded).out, openings, raw);
    } else {
      BeginInTime(source, flushed.idx, flushed.out, openings, raw);
    }
  }

  function Opened(openings: seq<string>): seq<string> {
    if openings == [] then [""] else openings
  }

  lemma EnsureInTime(source: string, st: State, openings: seq<string>)
    requires Ready(st) && InTime(source, st, openings)
    ensures InTime(source, Ensure(source, st), Opened(openings))
  {
    if st.session.None? {
      OpenInTime(source, st, openings, "");
      NothingMore([""]);
    }
  }

  lemma LineInTime(source: string, st: State, openings: seq<string>, line: string)
    requires Ready(st) && InTime(source, st, openings)
    ensures InTime(source, OnLine(source, st, line),
                   match KindOf(line)
                   case Header(ts) => openings + [ts]
                   case Console => openings
                   case Gap => openings
                   case _ => Opened(openings))
  {
    FlushInTime(source, st, openings);
    match KindOf(line)
    case Header(ts) => OpenInTime(source, st, openings, ts);
    case Prompt(text) => EnsureInTime(source, FlushModel(st), openings);
    case Edit(path) =>
      EnsureInTime(source, Flush(st), openings);
      EmitInTime(source, Ensure(source, Flush(st)), Opened(openings), FileWritten(path));
    case Prose => EnsureInTime(source, FlushUser(st), openings);
    case _ =>
  }

  lemma {:induction false} BodyInTime(source: string, lines: seq<string>)
    ensures InTime(source, Body(source, lines), Openings(lines))
  {
    if lines != [] {
      BodyInTime(source, lines[..|lines| - 1]);
      LineInTime(source, Body(source, lines[..|lines| - 1]), Openings(lines[..|lines| - 1]), lines[|lines| - 1]);
    }
  }

  /** Every event of a history is at the time its session's header names, or at the epoch if the session has none. */
  lemma EventsAreAtTheirHeadersTimes(source: string, lines: seq<string>)
    ensures AllTimed(source, Translation(source, lines), Openings(lines))
  {
    var st := Body(source, lines);
    BodyInTime(source, lines);
    FlushInTime(source, st, Openings(lines));
    if Flush(st).session.Some? {
      EmitInTime(source, Flush(st), Openings(lines),
          CheckpointRequested(Some("aider session " + Flush(st).session.value)));
    }
  }
}
