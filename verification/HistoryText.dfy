/** Nothing of an Aider history is lost on the way: its prompts, answers and edits come out whole and in order. */
module HistoryText {
  import opened Basics
  import opened Events
  import opened Text
  import opened Aider

  /** What is left of a text without white space. */
  function Ink(s: string): string {
    if s == "" then "" else Ink(s[..|s| - 1]) + if IsSpace(s[|s| - 1]) then "" else [s[|s| - 1]]
  }

  lemma {:induction false} InkOfTwo(a: string, b: string)
    ensures Ink(a + b) == Ink(a) + Ink(b)
  {
    if b == "" {
      assert a + b == a;
    } else {
      var before := b[..|b| - 1];
      InkOfTwo(a, before);
      assert (a + b)[..|a + b| - 1] == a + before;
    }
  }

  lemma {:induction false} BlankHasNoInk(s: string)
    requires Blank(s)
    ensures Ink(s) == ""
  {
    if s != "" {
      BlankHasNoInk(s[..|s| - 1]);
    }
  }

  lemma {:induction false} TrimStartKeepsInk(s: string)
    ensures Ink(TrimStart(s)) == Ink(s)
  {
    if s != "" && IsSpace(s[0]) {
      TrimStartKeepsInk(s[1..]);
      InkOfTwo([s[0]], s[1..]);
      BlankHasNoInk([s[0]]);
      assert s == [s[0]] + s[1..];
    }
  }

  lemma {:induction false} TrimEndKeepsInk(s: string)
    ensures Ink(TrimEnd(s)) == Ink(s)
  {
    if s != "" && IsSpace(s[|s| - 1]) {
      TrimEndKeepsInk(s[..|s| - 1]);
    }
  }

  lemma TrimKeepsInk(s: string)
    ensures Ink(Trim(s)) == Ink(s)
  {
    TrimStartKeepsInk(s);
    TrimEndKeepsInk(TrimStart(s));
  }

  lemma JoinedInk(parts: seq<string>, part: string)
    ensures Ink(Join(parts + [part])) == Ink(Join(parts)) + Ink(part)
  {
    assert (parts + [part])[..|parts|] == parts;
    if parts != [] {
      InkOfTwo(Join(parts) + "\n", part);
      InkOfTwo(Join(parts), "\n");
      BlankHasNoInk("\n");
    }
  }

  // ---- what comes out, and what went in ------------------------------------------------------------------

  /** The ink of the prompts, the ink of the answers, and the paths of the edits. */
  datatype Contents = Contents(prompts: string, answers: string, edits: seq<string>)

  function Said(out: seq<Envelope>): Contents {
    if out == [] then Contents("", "", [])
    else
      var c := Said(out[..|out| - 1]);
      match out[|out| - 1].event
      case UserPrompt(text) => c.(prompts := c.prompts + Ink(text))
      case ModelResponse(text) => c.(answers := c.answers + Ink(text))
      case FileWritten(path) => c.(edits := c.edits + [path])
      case _ => c
  }

  /** A contents with what a line adds. */
  function With(c: Contents, line: string): Contents {
    match KindOf(line)
    case Prompt(text) => c.(prompts := c.prompts + Ink(text))
    case Prose => c.(answers := c.answers + Ink(line))
    case Edit(path) => c.(edits := c.edits + [path])
    case _ => c
  }

  function Written(lines: seq<string>): Contents {
    if lines == [] then Contents("", "", []) else With(Written(lines[..|lines| - 1]), lines[|lines| - 1])
  }

  /** What has been said and what still waits to be. */
  function Held(st: State): Contents {
    var c := Said(st.out);
    c.(prompts := c.prompts + Ink(Join(st.user)), answers := c.answers + Ink(Join(st.model)))
  }

  lemma EmitSays(st: State, event: Event)
    requires st.session.Some?
    ensures var c := Said(st.out);
            Said(Emit(st, event).out) == match event
              case UserPrompt(text) => c.(prompts := c.prompts + Ink(text))
              case ModelResponse(text) => c.(answers := c.answers + Ink(text))
              case FileWritten(path) => c.(edits := c.edits + [path])
              case _ => c
  {
    assert Emit(st, event).out[..|st.out|] == st.out;
  }

  lemma FlushUserHolds(st: State)
    requires Ready(st)
    ensures Held(FlushUser(st)) == Held(st) && FlushUser(st).user == []
  {
    var text, rest := Join(st.user), st.(user := []);
    if st.user != [] {
      if Blank(text) {
        BlankHasNoInk(text);
      } else {
        EmitSays(rest, UserPrompt(text));
      }
    }
  }

  lemma FlushModelHolds(st: State)
    requires Ready(st)
    ensures Held(FlushModel(st)) == Held(st) && FlushModel(st).model == []
  {
    var text, rest := Join(st.model), st.(model := []);
    if st.model != [] {
      if Blank(text) {
        BlankHasNoInk(text);
      } else {
        EmitSays(rest, ModelResponse(Trim(text)));
        TrimKeepsInk(text);
      }
    }
  }

  lemma FlushHolds(st: State)
    requires Ready(st)
    ensures Held(Flush(st)) == Held(st) && Flush(st).user == [] && Flush(st).model == []
  {
    FlushUserHolds(st);
    FlushModelHolds(FlushUser(st));
  }

  lemma OpenHolds(source: string, st: State, raw: string)
    requires Ready(st)
    ensures Held(Open(source, st, raw)) == Held(st)
  {
    FlushHolds(st);
    var flushed := Flush(st);
    var out := if flushed.session.Some? then Emit(flushed, SessionEnded).out else flushed.out;
    if flushed.session.Some? {
      EmitSays(flushed, SessionEnded);
    }
    EmitSays(State(flushed.idx + 1, Some(SessionName(source, flushed.idx + 1)), IsoTs(raw), 0, [], [], out),
             SessionStarted(None));
  }

  lemma EnsureHolds(source: string, st: State)
    requires Ready(st)
    ensures Held(Ensure(source, st)) == Held(st)
    ensures Ensure(source, st).user == st.user && Ensure(source, st).model == st.model
  {
    if st.session.None? {
      OpenHolds(source, st, "");
    }
  }

  lemma WaitingPrompt(st: State, text: string)
    ensures Held(st.(user := st.user + [text])) == Held(st).(prompts := Held(st).prompts + Ink(text))
  {
    JoinedInk(st.user, text);
    Regroup(Said(st.out).prompts, Ink(Join(st.user)), Ink(text));
  }

  lemma WaitingAnswer(st: State, text: string)
    ensures Held(st.(model := st.model + [text])) == Held(st).(answers := Held(st).answers + Ink(text))
  {
    JoinedInk(st.model, text);
    Regroup(Said(st.out).answers, Ink(Join(st.model)), Ink(text));
  }

  lemma EditHolds(st: State, path: string)
    requires st.session.Some?
    ensures Held(Emit(st, FileWritten(path))) == Held(st).(edits := Held(st).edits + [path])
  {
    EmitSays(st, FileWritten(path));
  }

  lemma PromptLineHolds(source: string, st: State, line: string)
    requires Ready(st) && KindOf(line).Prompt?
    ensures Held(OnLine(source, st, line)) == With(Held(st), line)
  {
    var open := Ensure(source, FlushModel(st));
    FlushModelHolds(st);
    EnsureHolds(source, FlushModel(st));
    WaitingPrompt(open, KindOf(line).text);
  }

  lemma EditLineHolds(source: string, st: State, line: string)
    requires Ready(st) && KindOf(line).Edit?
    ensures Held(OnLine(source, st, line)) == With(Held(st), line)
  {
    FlushHolds(st);
    EnsureHolds(source, Flush(st));
    EditHolds(Ensure(source, Flush(st)), KindOf(line).path);
  }

  lemma BlankLineHolds(source: string, st: State, line: string)
    requires Ready(st) && KindOf(line).Gap?
    ensures Held(OnLine(source, st, line)) == With(Held(st), line)
  {
    if st.user != [] {
      FlushUserHolds(st);
    } else if st.model != [] {
      WaitingAnswer(st, "");
      NothingMore(Held(st).answers);
    }
  }

  lemma ProseLineHolds(source: string, st: State, line: string)
    requires Ready(st) && KindOf(line).Prose?
    ensures Held(OnLine(source, st, line)) == With(Held(st), line)
  {
    FlushUserHolds(st);
    EnsureHolds(source, FlushUser(st));
    WaitingAnswer(Ensure(source, FlushUser(st)), line);
  }

  lemma HeaderLineHolds(source: string, st: State, line: string)
    requires Ready(st) && (KindOf(line).Header? || KindOf(line).Console?)
    ensures Held(OnLine(source, st, line)) == With(Held(st), line)
  {
    FlushHolds(st);
    if KindOf(line).Header? {
      OpenHolds(source, st, KindOf(line).ts);
    }
  }

  /** A line adds what it says to what is held, and nothing is ever dropped. */
  lemma LineHolds(source: string, st: State, line: string)
    requires Ready(st)
    ensures Held(OnLine(source, st, line)) == With(Held(st), line)
  {
    match KindOf(line)
    case Header(_) => HeaderLineHolds(source, st, line);
    case Prompt(_) => PromptLineHolds(source, st, line);
    case Edit(_) => EditLineHolds(source, st, line);
    case Console => HeaderLineHolds(source, st, line);
    case Gap => BlankLineHolds(source, st, line);
    case Prose => ProseLineHolds(source, st, line);
  }

  lemma {:induction false} BodyHolds(source: string, lines: seq<string>)
    ensures Held(Body(source, lines)) == Written(lines)
  {
    if lines != [] {
      BodyHolds(source, lines[..|lines| - 1]);
      LineHolds(source, Body(source, lines[..|lines| - 1]), lines[|lines| - 1]);
    }
  }

  /** Nothing is lost: but for white space, the prompts that come out are the prompt lines that went in, the answers
      are the lines of prose, and every edit is reported once - each in order. */
  lemma NothingIsLost(source: string, lines: seq<string>)
    ensures Said(Translation(source, lines)) == Written(lines)
  {
    var st := Body(source, lines);
    BodyHolds(source, lines);
    FlushHolds(st);
    if Flush(st).session.Some? {
      EmitSays(Flush(st), CheckpointRequested(Some("aider session " + Flush(st).session.value)));
    }
  }
}
