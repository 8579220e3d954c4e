/** What holds of every Aider chat history: its translation is a row of well-bracketed sessions. */
module Histories {
  import opened Basics
  import opened Events
  import opened EventIds
  import opened Text
  import opened Aider
  import Sessions

  // ---- where an event stands ---------------------------------------------------------------------------

  /** The number of the last event's session, and its own number in it, counting the session starts. */
  function Place(out: seq<Envelope>): (nat, nat) {
    if out == [] then (0, 0)
    else
      var (k, n) := Place(out[..|out| - 1]);
      if out[|out| - 1].event.SessionStarted? then (k + 1, 0) else (k, n + 1)
  }

  /** Event `i` is numbered by its place, and sessions start at the beginning or where one ended. */
  predicate FollowsOn(source: string, out: seq<Envelope>, i: nat)
    requires i < |out|
  {
    var (k, n) := Place(out[..i + 1]);
    && out[i] == EnvelopeIn(SessionName(source, k), n, out[i].ts, out[i].event)
    && (if out[i].event.SessionStarted? then i == 0 || out[i - 1].event.SessionEnded?
        else i > 0 && !out[i - 1].event.SessionEnded?)
  }

  predicate Bracketed(source: string, out: seq<Envelope>) {
    forall i :: 0 <= i < |out| ==> FollowsOn(source, out, i)
  }

  predicate Unmarked(out: seq<Envelope>) {
    forall i :: 0 <= i < |out| ==> !out[i].event.CheckpointRequested?
  }

  /** The machine between two lines. */
  predicate Settled(source: string, st: State) {
    && Ready(st)
    && (st.user == [] || st.model == [])
    && Bracketed(source, st.out) && Unmarked(st.out)
    && if st.out == [] then st == INITIAL
       else
         && st.session == Some(SessionName(source, st.idx)) && st.seqNo > 0
         && Place(st.out) == (st.idx, st.seqNo - 1)
         && !st.out[|st.out| - 1].event.SessionEnded?
  }

  lemma BracketedSnoc(source: string, out: seq<Envelope>, env: Envelope)
    requires Bracketed(source, out) && FollowsOn(source, out + [env], |out|)
    ensures Bracketed(source, out + [env])
  {
    var all := out + [env];
    forall i | 0 <= i < |out| ensures FollowsOn(source, all, i) {
      assert all[..i + 1] == out[..i + 1];
      assert FollowsOn(source, out, i);
    }
  }

  lemma PlaceSnoc(out: seq<Envelope>, env: Envelope)
    ensures (out + [env])[..|out| + 1] == out + [env]
    ensures var (k, n) := Place(out);
            Place(out + [env]) == if env.event.SessionStarted? then (k + 1, 0) else (k, n + 1)
  {
  }

  lemma EmitSettles(source: string, st: State, event: Event)
    requires Settled(source, st) && st.session.Some?
    requires !event.SessionStarted? && !event.SessionEnded? && !event.CheckpointRequested?
    ensures Settled(source, Emit(st, event))
  {
    var env := EnvelopeIn(st.session.value, st.seqNo, st.ts, event);
    PlaceSnoc(st.out, env);
    BracketedSnoc(source, st.out, env);
  }

  lemma FlushSettles(source: string, st: State)
    requires Settled(source, st)
    ensures Settled(source, FlushUser(st)) && Settled(source, FlushModel(st)) && Settled(source, Flush(st))
    ensures FlushUser(st).user == [] && FlushModel(st).model == [] && Flush(st).user == Flush(st).model == []
    ensures FlushUser(st).session == FlushModel(st).session == Flush(st).session == st.session
  {
    if st.session.Some? {
      EmitSettles(source, st.(user := []), UserPrompt(Join(st.user)));
      EmitSettles(source, st.(model := []), ModelResponse(Trim(Join(st.model))));
      var mid := FlushUser(st);
      assert Settled(source, mid.(model := []));
      EmitSettles(source, mid.(model := []), ModelResponse(Trim(Join(st.model))));
    }
  }

  /** A session that ended, or none at all. */
  predicate Closed(source: string, out: seq<Envelope>, idx: nat) {
    && Bracketed(source, out) && Unmarked(out) && Place(out).0 == idx
    && (out != [] ==> out[|out| - 1].event.SessionEnded?)
  }

  lemma EndCloses(source: string, st: State)
    requires Settled(source, st) && st.session.Some?
    ensures Closed(source, Emit(st, SessionEnded).out, st.idx)
  {
    var env := EnvelopeIn(st.session.value, st.seqNo, st.ts, SessionEnded);
    PlaceSnoc(st.out, env);
    BracketedSnoc(source, st.out, env);
  }

  lemma StartSettles(source: string, out: seq<Envelope>, idx: nat, ts: string)
    requires Closed(source, out, idx)
    ensures var r := Begin(source, idx, ts, out); Settled(source, r) && r.session.Some? && r.user == r.model == []
  {
    var env := EnvelopeIn(SessionName(source, idx + 1), 0, ts, SessionStarted(None));
    var r := Begin(source, idx, ts, out);
    StartFollowsOn(source, out, idx, ts);
    BracketedSnoc(source, out, env);
    StandsLast(r.out, out, env);
    StartIsPlaced(source, out, idx, env);
  }

  lemma StandsLast(all: seq<Envelope>, out: seq<Envelope>, env: Envelope)
    requires all == out + [env]
    ensures all != [] && all[|all| - 1] == env
    ensures Unmarked(out) && !env.event.CheckpointRequested? ==> Unmarked(all)
  {
  }

  lemma StartIsPlaced(source: string, out: seq<Envelope>, idx: nat, env: Envelope)
    requires Closed(source, out, idx) && env.event.SessionStarted?
    ensures Place(out + [env]) == (idx + 1, 0)
  {
    PlaceSnoc(out, env);
  }

  lemma StartFollowsOn(source: string, out: seq<Envelope>, idx: nat, ts: string)
    requires Closed(source, out, idx)
    ensures FollowsOn(source, out + [EnvelopeIn(SessionName(source, idx + 1), 0, ts, SessionStarted(None))], |out|)
  {
    PlaceSnoc(out, EnvelopeIn(SessionName(source, idx + 1), 0, ts, SessionStarted(None)));
  }

  lemma OpenSettles(source: string, st: State, raw: string)
    requires Settled(source, st)
    ensures var r := Open(source, st, raw); Settled(source, r) && r.session.Some? && r.user == r.model == []
  {
    FlushSettles(source, st);
    var flushed := Flush(st);
    if flushed.session.Some? {
      EndCloses(source, flushed);
      StartSettles(source, Emit(flushed, SessionEnded).out, flushed.idx, IsoTs(raw));
    } else {
      StartSettles(source, [], 0, IsoTs(raw));
    }
  }

  lemma EnsureSettles(source: string, st: State)
    requires Settled(source, st)
    ensures var r := Ensure(source, st);
            Settled(source, r) && r.session.Some? && r.user == st.user && r.model == st.model
  {
    OpenSettles(source, st, "");
  }

  lemma WaitingSettles(source: string, st: State, user: seq<string>, model: seq<string>)
    requires Settled(source, st) && st.session.Some? && (user == [] || model == [])
    ensures Settled(source, st.(user := user, model := model))
  {
  }

  lemma PromptSettles(source: string, st: State, line: string)
    requires Settled(source, st) && KindOf(line).Prompt?
    ensures Settled(source, OnLine(source, st, line))
  {
    var open := Ensure(source, FlushModel(st));
    FlushSettles(source, st);
    EnsureSettles(source, FlushModel(st));
    WaitingSettles(source, open, open.user + [KindOf(line).text], []);
  }

  lemma EditSettles(source: string, st: State, line: string)
    requires Settled(source, st) && KindOf(line).Edit?
    ensures Settled(source, OnLine(source, st, line))
  {
    FlushSettles(source, st);
    EnsureSettles(source, Flush(st));
    EmitSettles(source, Ensure(source, Flush(st)), FileWritten(KindOf(line).path));
  }

  lemma ProseSettles(source: string, st: State, line: string)
    requires Settled(source, st) && KindOf(line).Prose?
    ensures Settled(source, OnLine(source, st, line))
  {
    var open := Ensure(source, FlushUser(st));
    FlushSettles(source, st);
    EnsureSettles(source, FlushUser(st));
    WaitingSettles(source, open, [], open.model + [line]);
  }

  lemma OtherSettles(source: string, st: State, line: string)
    requires Settled(source, st) && (KindOf(line).Header? || KindOf(line).Console? || KindOf(line).Gap?)
    ensures Settled(source, OnLine(source, st, line))
  {
    FlushSettles(source, st);
    if KindOf(line).Header? {
      OpenSettles(source, st, KindOf(line).ts);
    } else if KindOf(line).Gap? && st.user == [] && st.model != [] {
      WaitingSettles(source, st, [], st.model + [""]);
    }
  }

  lemma LineSettles(source: string, st: State, line: string)
    requires Settled(source, st)
    ensures Settled(source, OnLine(source, st, line))
  {
    match KindOf(line)
    case Prompt(_) => PromptSettles(source, st, line);
    case Edit(_) => EditSettles(source, st, line);
    case Prose => ProseSettles(source, st, line);
    case Header(_) => OtherSettles(source, st, line);
    case Console => OtherSettles(source, st, line);
    case Gap => OtherSettles(source, st, line);
  }

  lemma {:induction false} BodySettles(source: string, lines: seq<string>)
    ensures Settled(source, Body(source, lines))
  {
    if lines != [] {
      BodySettles(source, lines[..|lines| - 1]);
      LineSettles(source, Body(source, lines[..|lines| - 1]), lines[|lines| - 1]);
    }
  }

  // ---- main results ------------------------------------------------------------------------------------

  predicate Before(a: (nat, nat), b: (nat, nat)) {
    a.0 < b.0 || (a.0 == b.0 && a.1 < b.1)
  }

  lemma {:induction false} PlacesAdvance(out: seq<Envelope>, i: nat, j: nat)
    requires i < j <= |out| && i > 0
    ensures Before(Place(out[..i]), Place(out[..j]))
  {
    assert out[..j][..j - 1] == out[..j - 1];
    if i < j - 1 {
      PlacesAdvance(out, i, j - 1);
    }
  }

  lemma SessionNamesAreDistinct(a: string, j: nat, b: string, k: nat)
    ensures SessionName(a, j) == SessionName(b, k) <==> a == b && j == k
  {
    if SessionName(a, j) == SessionName(b, k) {
      assert SessionName(a, j) == (a + "-") + ['s'] + Decimal(j) && SessionName(b, k) == (b + "-") + ['s'] + Decimal(k);
      MarkedNumber(a + "-", j, b + "-", k, 's');
      assert a == (a + "-")[..|a|] && b == (b + "-")[..|b|];
    }
  }

  /** In a well-bracketed row of sessions no two events share an id. */
  lemma PlacesAreIds(source: string, out: seq<Envelope>, i: nat, j: nat)
    requires Bracketed(source, out) && i < j < |out|
    ensures out[i].eventId != out[j].eventId
  {
    assert FollowsOn(source, out, i) && FollowsOn(source, out, j);
    PlacesAdvance(out, i + 1, j + 1);
    var (k, m) := Place(out[..i + 1]);
    var (l, n) := Place(out[..j + 1]);
    SessionNamesAreDistinct(source, k, source, l);
    IdsAreDistinct(SessionName(source, k), m, SessionName(source, l), n);
  }

  /** A chat history becomes well-bracketed sessions: each starts with its start, is numbered without a gap under its
      own name, and ends with its end, but for the last, which is left open and marked for a checkpoint.  No two
      events share an id, and a prompt never waits while an answer does. */
  lemma HistoriesAreSessions(source: string, lines: seq<string>)
    ensures var out := Translation(source, lines);
            && Bracketed(source, out)
            && (forall i, j :: 0 <= i < j < |out| ==> out[i].eventId != out[j].eventId)
            && (forall i :: 0 <= i < |out| ==> (out[i].event.CheckpointRequested? <==> i == |out| - 1))
            && (out != [] ==> var last := out[|out| - 1];
                              last.event == CheckpointRequested(Some("aider session " + last.sessionId)))
    ensures Body(source, lines).user == [] || Body(source, lines).model == []
  {
    var st := Body(source, lines);
    BodySettles(source, lines);
    FlushSettles(source, st);
    var flushed, out := Flush(st), Translation(source, lines);
    if flushed.session.Some? {
      var session := flushed.session.value;
      var env := EnvelopeIn(session, flushed.seqNo, flushed.ts, CheckpointRequested(Some("aider session " + session)));
      PlaceSnoc(flushed.out, env);
      BracketedSnoc(source, flushed.out, env);
    }
    forall i, j | 0 <= i < j < |out| ensures out[i].eventId != out[j].eventId {
      PlacesAreIds(source, out, i, j);
    }
  }

  /** Every event is Aider's, and numbered by its own session. */
  lemma HistoryEvents(source: string, lines: seq<string>, i: nat)
    requires i < |Translation(source, lines)|
    ensures var env := Translation(source, lines)[i]; env.hostId == HOST_ID && Sessions.OwnNumber(env)
  {
    HistoriesAreSessions(source, lines);
    var out := Translation(source, lines);
    assert FollowsOn(source, out, i);
    var (k, n) := Place(out[..i + 1]);
    assert out[i].eventId == Some(Numbered(out[i].sessionId, n));
  }

  /** The clock of an open session, and the times of what was emitted, name a date. */
  predicate AllDated(st: State) {
    && (st.session.Some? ==> |st.ts| >= 10 && st.ts[4] == '-')
    && forall i :: 0 <= i < |st.out| ==> Dated(st.out[i])
  }

  lemma FlushKeepsDated(st: State)
    requires Ready(st) && AllDated(st)
    ensures AllDated(FlushUser(st)) && AllDated(FlushModel(st)) && AllDated(Flush(st))
  {
  }

  lemma OpenKeepsDated(source: string, st: State, raw: string)
    requires Ready(st) && AllDated(st)
    ensures AllDated(Open(source, st, raw))
  {
    FlushKeepsDated(st);
  }

  lemma EmitKeepsDated(st: State, event: Event)
    requires st.session.Some? && AllDated(st)
    ensures AllDated(Emit(st, event))
  {
  }

  lemma EnsureKeepsDated(source: string, st: State)
    requires Ready(st) && AllDated(st)
    ensures AllDated(Ensure(source, st))
  {
    OpenKeepsDated(source, st, "");
  }

  lemma LineKeepsDated(source: string, st: State, line: string)
    requires Ready(st) && AllDated(st)
    ensures AllDated(OnLine(source, st, line))
  {
    FlushKeepsDated(st);
    match KindOf(line)
    case Header(ts) => OpenKeepsDated(source, st, ts);
    case Prompt(_) => EnsureKeepsDated(source, FlushModel(st));
    case Edit(path) =>
      EnsureKeepsDated(source, Flush(st));
      EmitKeepsDated(Ensure(source, Flush(st)), FileWritten(path));
    case Prose => EnsureKeepsDated(source, FlushUser(st));
    case _ =>
  }

  /** Every event of a history has a date of its own, so it is filed under the same day whenever it is read. */
  lemma {:induction false} HistoriesAreDated(source: string, lines: seq<string>)
    ensures AllDated(Body(source, lines))
    ensures forall i :: 0 <= i < |Translation(source, lines)| ==> Dated(Translation(source, lines)[i])
  {
    if lines != [] {
      HistoriesAreDated(source, lines[..|lines| - 1]);
      LineKeepsDated(source, Body(source, lines[..|lines| - 1]), lines[|lines| - 1]);
    }
    FlushKeepsDated(Body(source, lines));
  }

  predicate Solid(s: string) {
    s != "" && forall i :: 0 <= i < |s| ==> !IsSpace(s[i])
  }

  lemma {:induction false} FirstSpaceBecomesT(date: string, time: string)
    requires forall i :: 0 <= i < |date| ==> !IsSpace(date[i])
    ensures SpaceToT(date + " " + time) == date + "T" + time
  {
    var s := date + " " + time;
    if date == "" {
      assert s[1..] == time;
    } else {
      assert s[0] == date[0] && s[1..] == date[1..] + " " + time;
      FirstSpaceBecomesT(date[1..], time);
    }
  }

  /** The times Aider writes, with or without seconds, are kept, and finer ones to the second. */
  lemma HeaderTimesAreKept(date: string, time: string)
    requires Solid(date) && |date| == 10 && date[4] == '-' && date[7] == '-'
    requires forall i :: 0 <= i < 4 ==> IsDigit(date[i])
    requires Solid(time) && (|time| == 5 || |time| >= 8) && time[2] == ':'
    ensures IsoTs(date + " " + time) == date + "T" + (if |time| == 5 then time + ":00" else time[..8]) + "Z"
  {
    var raw, t := date + " " + time, date + "T" + time;
    assert raw[0] == date[0] && raw[|raw| - 1] == time[|time| - 1];
    assert Trim(raw) == raw;
    FirstSpaceBecomesT(date, time);
    assert t[10] == 'T' && t[13] == time[2];
    if |time| == 5 {
      assert t + ":00" == date + "T" + (time + ":00");
    } else {
      assert t[..19] == date + "T" + time[..8];
    }
  }

  lemma {:induction false} SpaceToTAt(s: string, i: nat)
    requires i < |s|
    ensures |SpaceToT(s)| == |s| && (SpaceToT(s)[i] == s[i] || (s[i] == ' ' && SpaceToT(s)[i] == 'T'))
  {
    if s[0] != ' ' && |s| > 1 {
      SpaceToTAt(s[1..], if i == 0 then 0 else i - 1);
    }
  }

  /** The header has the separators of a time, to the minute or the second, and the digits of a year. */
  predicate LooksLikeATime(h: string) {
    && (|h| == 16 || |h| >= 19) && h[4] == '-' && h[7] == '-' && h[10] in {' ', 'T'} && h[13] == ':'
    && forall i :: 0 <= i < 4 ==> IsDigit(h[i])
  }

  /** Anything else becomes the epoch. */
  lemma OtherHeadersAreAtTheEpoch(raw: string)
    requires !LooksLikeATime(Trim(raw))
    ensures IsoTs(raw) == "1970-01-01T00:00:00Z"
  {
    var h := Trim(raw);
    if h != "" {
      SpaceToTAt(h, 0);
    }
    if |h| >= 16 {
      forall i | 0 <= i < |h| ensures SpaceToT(h)[i] == h[i] || (h[i] == ' ' && SpaceToT(h)[i] == 'T') {
        SpaceToTAt(h, i);
      }
      if exists i :: 0 <= i < 4 && !IsDigit(h[i]) {
        var i :| 0 <= i < 4 && !IsDigit(h[i]);
        assert !IsDigit(SpaceToT(h)[i]);
      }
    }
  }

  /** The text has a digit wherever the form has a 9, and is the form elsewhere. */
  predicate HasForm(s: string, form: string) {
    |s| == |form| && forall i :: 0 <= i < |s| ==> if form[i] == '9' then IsDigit(s[i]) else s[i] == form[i]
  }

  lemma FormOfTwo(a: string, b: string, p: string, q: string)
    requires |a| == |p|
    ensures HasForm(a + b, p + q) <==> HasForm(a, p) && HasForm(b, q)
  {
    if HasForm(a + b, p + q) {
      forall i | 0 <= i < |a| ensures if p[i] == '9' then IsDigit(a[i]) else a[i] == p[i] {
        assert (a + b)[i] == a[i] && (p + q)[i] == p[i];
      }
      forall i | 0 <= i < |b| ensures if q[i] == '9' then IsDigit(b[i]) else b[i] == q[i] {
        assert (a + b)[|a| + i] == b[i] && (p + q)[|a| + i] == q[i];
      }
    }
  }

  const DATE_FORM := "9999-99-99"
  const MINUTE_FORM := "99:99"
  const CLOCK_FORM := MINUTE_FORM + ":99"

  lemma FormOfTimestamp(date: string, clock: string)
    requires |date| == |DATE_FORM|
    ensures HasForm(date + "T" + clock + "Z", DATE_FORM + "T" + CLOCK_FORM + "Z")
            <==> HasForm(date, DATE_FORM) && HasForm(clock, CLOCK_FORM)
  {
    FormOfTwo(date, "T", DATE_FORM, "T");
    if |clock| == |CLOCK_FORM| {
      FormOfTwo(date + "T", clock, DATE_FORM + "T", CLOCK_FORM);
      FormOfTwo(date + "T" + clock, "Z", DATE_FORM + "T" + CLOCK_FORM, "Z");
    }
  }

  lemma FormOfClock(time: string)
    ensures |time| == |MINUTE_FORM| ==> (HasForm(time + ":00", CLOCK_FORM) <==> HasForm(time, MINUTE_FORM))
  {
    if |time| == |MINUTE_FORM| {
      FormOfTwo(time, ":00", MINUTE_FORM, ":99");
    }
  }

  /** Only the year is checked for digits: what comes out has the form of a time exactly when the header's parts
      have. */
  lemma HeaderTimesHaveTheirForm(date: string, time: string)
    requires Solid(date) && |date| == 10 && date[4] == '-' && date[7] == '-'
    requires forall i :: 0 <= i < 4 ==> IsDigit(date[i])
    requires Solid(time) && (|time| == 5 || |time| == 8) && time[2] == ':'
    ensures HasForm(IsoTs(date + " " + time), DATE_FORM + "T" + CLOCK_FORM + "Z")
            <==> HasForm(date, DATE_FORM) && (HasForm(time, MINUTE_FORM) || HasForm(time, CLOCK_FORM))
  {
    HeaderTimesAreKept(date, time);
    assert |time| == 8 ==> time[..8] == time;
    FormOfTimestamp(date, if |time| == 5 then time + ":00" else time);
    FormOfClock(time);
  }

  lemma FlushOnlyAdds(st: State)
    requires Ready(st)
    ensures st.out <= FlushUser(st).out && st.out <= FlushModel(st).out && st.out <= Flush(st).out
  {
  }

  lemma OpenOnlyAdds(source: string, st: State, raw: string)
    requires Ready(st)
    ensures st.out <= Open(source, st, raw).out
  {
    FlushOnlyAdds(st);
  }

  lemma LineOnlyAdds(source: string, st: State, line: string)
    requires Ready(st)
    ensures st.out <= OnLine(source, st, line).out
  {
    FlushOnlyAdds(st);
    match KindOf(line)
    case Header(ts) => OpenOnlyAdds(source, st, ts);
    case Prompt(_) => OpenOnlyAdds(source, FlushModel(st), "");
    case Edit(_) => OpenOnlyAdds(source, Flush(st), "");
    case Prose => OpenOnlyAdds(source, FlushUser(st), "");
    case _ =>
  }

  lemma {:induction false} BodiesGrow(source: string, lines: seq<string>, n: nat)
    requires n <= |lines|
    ensures Body(source, lines[..n]).out <= Body(source, lines).out
  {
    if n == |lines| {
      assert lines[..n] == lines;
    } else {
      var before := lines[..|lines| - 1];
      BodiesGrow(source, before, n);
      assert before[..n] == lines[..n];
      LineOnlyAdds(source, Body(source, before), lines[|lines| - 1]);
    }
  }

  /** What was emitted before the end of the file stays, whatever is appended to the file. */
  lemma HistoriesGrow(source: string, lines: seq<string>, n: nat)
    requires n <= |lines|
    ensures Body(source, lines[..n]).out <= Body(source, lines).out <= Translation(source, lines)
  {
    BodiesGrow(source, lines, n);
    FlushOnlyAdds(Body(source, lines));
  }
}
