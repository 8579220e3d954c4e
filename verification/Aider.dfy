/** The Aider adapter (crates/adapter-aider/src/lib.rs): a chat history in Markdown, translated line by line. */
module Aider {
  import opened Basics
  import opened Events
  import opened EventIds
  import opened Text

  const HOST_ID := "aider"
  const EPOCH := "1970-01-01T00:00:00Z"

  function SpaceToT(s: string): string {
    if s == "" then "" else if s[0] == ' ' then "T" + s[1..] else [s[0]] + SpaceToT(s[1..])
  }

  /** The time a session header names, in the form of RFC 3339, or the epoch. */
  function IsoTs(raw: string): (ts: string)
    ensures |ts| == 20 && ts[4] == '-' && ts[7] == '-' && ts[10] == 'T' && ts[19] == 'Z'
  {
    var t := SpaceToT(Trim(raw));
    if |t| >= 16 && t[4] == '-' && t[7] == '-' && t[10] == 'T' && t[13] == ':'
       && forall i :: 0 <= i < 4 ==> IsDigit(t[i]) then
      var withSecs := if |t| == 16 then t + ":00" else t;
      if |withSecs| < 19 then EPOCH else withSecs[..19] + "Z"
    else EPOCH
  }

  function SessionName(source: string, idx: nat): string {
    source + "-s" + Decimal(idx)
  }

  // ---- what a line does, as a function -----------------------------------------------------------------

  datatype State = State(
    idx: nat,
    session: Option<string>,
    ts: string,
    seqNo: nat,
    user: seq<string>,
    model: seq<string>,
    out: seq<Envelope>)

  const INITIAL := State(0, None, "", 0, [], [], [])

  /** Whatever waits to be emitted has a session to go to. */
  predicate Ready(st: State) {
    st.user != [] || st.model != [] ==> st.session.Some?
  }

  function EnvelopeIn(session: string, seqNo: nat, ts: string, event: Event): Envelope {
    var id := Numbered(session, seqNo);
    Envelope(HOST_ID, session, None, Some(id), ts, Some(ImportedFrom("aider", id, ts)), None, event)
  }

  function Emit(st: State, event: Event): State
    requires st.session.Some?
  {
    st.(seqNo := st.seqNo + 1, out := st.out + [EnvelopeIn(st.session.value, st.seqNo, st.ts, event)])
  }

  function FlushUser(st: State): State
    requires Ready(st)
  {
    var text, rest := Join(st.user), st.(user := []);
    if st.user == [] || Blank(text) then rest else Emit(rest, UserPrompt(text))
  }

  function FlushModel(st: State): State
    requires Ready(st)
  {
    var text, rest := Join(st.model), st.(model := []);
    if st.model == [] || Blank(text) then rest else Emit(rest, ModelResponse(Trim(text)))
  }

  function Flush(st: State): State
    requires Ready(st)
  {
    FlushModel(FlushUser(st))
  }

  /** A new session after those emitted so far. */
  function Begin(source: string, idx: nat, ts: string, out: seq<Envelope>): State {
    Emit(State(idx + 1, Some(SessionName(source, idx + 1)), ts, 0, [], [], out), SessionStarted(None))
  }

  function Open(source: string, st: State, raw: string): State
    requires Ready(st)
  {
    var flushed := Flush(st);
    Begin(source, flushed.idx, IsoTs(raw),
          if flushed.session.Some? then Emit(flushed, SessionEnded).out else flushed.out)
  }

  function Ensure(source: string, st: State): (r: State)
    requires Ready(st)
    ensures Ready(r) && r.session.Some?
  {
    if st.session.None? then Open(source, st, "") else st
  }

  datatype Kind = Header(ts: string) | Prompt(text: string) | Edit(path: string) | Console | Gap | Prose

  /** How a line reads. */
  function KindOf(line: string): Kind {
    var header := StripPrefix(TrimStart(line), "# aider chat started at");
    var prompt := StripPrefix(line, "####");
    var console := StripPrefix(TrimStart(line), ">");
    if header.Some? then Header(Trim(header.value))
    else if prompt.Some? then Prompt(OrElse(StripPrefix(prompt.value, " "), prompt.value))
    else if console.Some? then
      match StripPrefix(OrElse(StripPrefix(console.value, " "), console.value), "Applied edit to ")
      case Some(path) => Edit(Trim(path))
      case None => Console
    else if Blank(line) then Gap
    else Prose
  }

  function OnLine(source: string, st: State, line: string): (r: State)
    requires Ready(st)
    ensures Ready(r)
  {
    match KindOf(line)
    case Header(ts) => Open(source, st, ts)
    case Prompt(text) => var open := Ensure(source, FlushModel(st)); open.(user := open.user + [text])
    case Edit(path) => Emit(Ensure(source, Flush(st)), FileWritten(path))
    case Console => Flush(st)
    case Gap =>
      if st.user != [] then FlushUser(st)
      else if st.model != [] then st.(model := st.model + [""])
      else st
    case Prose => var open := Ensure(source, FlushUser(st)); open.(model := open.model + [line])
  }

  /** The state after the lines, before the end of the file. */
  function Body(source: string, lines: seq<string>): (r: State)
    ensures Ready(r)
  {
    if lines == [] then INITIAL else OnLine(source, Body(source, lines[..|lines| - 1]), lines[|lines| - 1])
  }

  function Finish(st: State): State
    requires Ready(st)
  {
    var flushed := Flush(st);
    match flushed.session
    case Some(session) => Emit(flushed, CheckpointRequested(Some("aider session " + session)))
    case None => flushed
  }

  function Translation(source: string, lines: seq<string>): seq<Envelope> {
    Finish(Body(source, lines)).out
  }

  // ---- the translator ----------------------------------------------------------------------------------

  class Xlate {
    const sourceId: string
    var sessionIdx: nat
    var sessionId: Option<string>
    var ts: string
    var seqNo: nat
    var pendingUser: seq<string>
    var pendingModel: seq<string>
    var out: seq<Envelope>

    constructor (source: string)
      ensures sourceId == source && Current() == INITIAL
    {
      sourceId := source;
      sessionIdx, sessionId, ts, seqNo := 0, None, "", 0;
      pendingUser, pendingModel, out := [], [], [];
    }

    function Current(): State
      reads this
    {
      State(sessionIdx, sessionId, ts, seqNo, pendingUser, pendingModel, out)
    }

    /** Without a session the event would be lost; no caller below is ever without one. */
    method Push(event: Event)
      modifies this`seqNo, this`out
      ensures if sessionId.None? then Current() == old(Current()) else Current() == Emit(old(Current()), event)
    {
      if sessionId.None? {
        return;
      }
      var id := Numbered(sessionId.value, seqNo);
      var origin := Some(ImportedFrom("aider", id, ts));
      out := out + [Envelope(HOST_ID, sessionId.value, None, Some(id), ts, origin, None, event)];
      seqNo := seqNo + 1;
    }

    method TakeUser()
      requires Ready(Current())
      modifies this`seqNo, this`out, this`pendingUser
      ensures Current() == FlushUser(old(Current()))
    {
      if pendingUser != [] {
        var text := Join(pendingUser);
        pendingUser := [];
        if !Blank(text) {
          Push(UserPrompt(text));
        }
      }
    }

    method TakeModel()
      requires Ready(Current())
      modifies this`seqNo, this`out, this`pendingModel
      ensures Current() == FlushModel(old(Current()))
    {
      if pendingModel != [] {
        var text := Join(pendingModel);
        pendingModel := [];
        if !Blank(text) {
          Push(ModelResponse(Trim(text)));
        }
      }
    }

    method TakeAll()
      requires Ready(Current())
      modifies this`seqNo, this`out, this`pendingUser, this`pendingModel
      ensures Current() == Flush(old(Current()))
    {
      TakeUser();
      TakeModel();
    }

    method OpenSession(raw: string)
      requires Ready(Current())
      modifies this
      ensures Current() == Open(sourceId, old(Current()), raw)
    {
      TakeAll();
      if sessionId.Some? {
        Push(SessionEnded);
      }
      sessionIdx := sessionIdx + 1;
      sessionId := Some(SessionName(sourceId, sessionIdx));
      ts := IsoTs(raw);
      seqNo := 0;
      Push(SessionStarted(None));
    }

    method EnsureSession()
      requires Ready(Current())
      modifies this
      ensures Current() == Ensure(sourceId, old(Current()))
    {
      if sessionId.None? {
        OpenSession("");
      }
    }

    method Line(line: string)
      requires Ready(Current())
      modifies this
      ensures Current() == OnLine(sourceId, old(Current()), line)
    {
      match KindOf(line)
      case Header(started) =>
        OpenSession(started);
      case Prompt(text) =>
        TakeModel();
        EnsureSession();
        pendingUser := pendingUser + [text];
      case Edit(path) =>
        TakeAll();
        EnsureSession();
        Push(FileWritten(path));
      case Console =>
        TakeAll();
      case Gap =>
        if pendingUser != [] {
          TakeUser();
        } else if pendingModel != [] {
          pendingModel := pendingModel + [""];
        }
      case Prose =>
        TakeUser();
        EnsureSession();
        pendingModel := pendingModel + [line];
    }

    method End()
      requires Ready(Current())
      modifies this
      ensures Current() == Finish(old(Current()))
    {
      TakeAll();
      if sessionId.Some? {
        Push(CheckpointRequested(Some("aider session " + sessionId.value)));
      }
    }
  }

  method Translate(lines: seq<string>, source: string) returns (envelopes: seq<Envelope>)
    ensures envelopes == Translation(source, lines)
  {
    var x := new Xlate(source);
    for i := 0 to |lines|
      invariant x.sourceId == source && x.Current() == Body(source, lines[..i])
    {
      assert lines[..i + 1][..i] == lines[..i];
      x.Line(lines[i]);
    }
    assert lines[..|lines|] == lines;
    x.End();
    envelopes := x.out;
  }
}
