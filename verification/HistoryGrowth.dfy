/** What a growing Aider history does to its translation: what waits at the end of the file is emitted as far as it is
    written, under the id its full text will have. */
module HistoryGrowth {
  import opened Basics
  import opened Events
  import opened Text
  import opened Aider
  import opened Histories

  // ---- reading on ----------------------------------------------------------------------------------------

  /** The state after more lines. */
  function Onward(source: string, st: State, more: seq<string>): (r: State)
    requires Ready(st)
    ensures Ready(r)
    decreases |more|
  {
    if more == [] then st else Onward(source, OnLine(source, st, more[0]), more[1..])
  }

  lemma {:induction false} BodyOnward(source: string, lines: seq<string>, more: seq<string>)
    ensures Body(source, lines + more) == Onward(source, Body(source, lines), more)
    decreases |more|
  {
    if more == [] {
      assert lines + more == lines;
    } else {
      var next := lines + [more[0]];
      assert next[..|lines|] == lines;
      assert lines + more == next + more[1..];
      BodyOnward(source, next, more[1..]);
    }
  }

  /** All that is emitted by the end of the file. */
  function ToTheEnd(source: string, st: State, more: seq<string>): seq<Envelope>
    requires Ready(st)
  {
    Finish(Onward(source, st, more)).out
  }

  lemma {:induction false} EmittedStays(source: string, st: State, more: seq<string>)
    requires Ready(st)
    ensures st.out <= ToTheEnd(source, st, more)
    decreases |more|
  {
    if more == [] {
      FlushOnlyAdds(st);
    } else {
      LineOnlyAdds(source, st, more[0]);
      EmittedStays(source, OnLine(source, st, more[0]), more[1..]);
    }
  }

  /** What a line emits stands first among what comes after. */
  lemma EmittedNext(source: string, st: State, more: seq<string>, env: Envelope)
    requires Ready(st) && more != [] && st.out + [env] <= OnLine(source, st, more[0]).out
    ensures st.out + [env] <= ToTheEnd(source, st, more)
  {
    EmittedStays(source, OnLine(source, st, more[0]), more[1..]);
  }

  /** The envelope an open session emits next. */
  function Next(st: State, event: Event): Envelope
    requires st.session.Some?
  {
    EnvelopeIn(st.session.value, st.seqNo, st.ts, event)
  }

  // ---- a prompt that waits -------------------------------------------------------------------------------

  /** A prompt waits that will be emitted. */
  predicate PromptWaits(st: State) {
    Ready(st) && st.user != [] && !Blank(Join(st.user)) && st.model == []
  }

  function FollowingPrompts(more: seq<string>): seq<string>
    decreases |more|
  {
    if more != [] && KindOf(more[0]).Prompt? then [KindOf(more[0]).text] + FollowingPrompts(more[1..]) else []
  }

  lemma JoinSnoc(parts: seq<string>, part: string)
    requires parts != []
    ensures Join(parts + [part]) == Join(parts) + ("\n" + part)
  {
    assert (parts + [part])[..|parts|] == parts;
  }

  /** What further parts add. */
  function Added(more: seq<string>): (s: string)
    ensures |s| >= |more|
    decreases |more|
  {
    if more == [] then "" else "\n" + more[0] + Added(more[1..])
  }

  lemma {:induction false} JoinOfMore(parts: seq<string>, more: seq<string>)
    requires parts != []
    ensures Join(parts + more) == Join(parts) + Added(more)
    decreases |more|
  {
    if more == [] {
      assert parts + more == parts;
    } else {
      JoinSnoc(parts, more[0]);
      JoinOfMore(parts + [more[0]], more[1..]);
      SplitFirst(more);
      Regroup(parts, [more[0]], more[1..]);
      Regroup(Join(parts), "\n" + more[0], Added(more[1..]));
    }
  }

  lemma InkStays(a: string, b: string)
    requires !Blank(a)
    ensures !Blank(a + b)
  {
    var i :| 0 <= i < |a| && !IsSpace(a[i]);
    assert (a + b)[i] == a[i];
  }

  lemma PromptGoesOn(source: string, st: State, line: string)
    requires PromptWaits(st) && KindOf(line).Prompt?
    ensures OnLine(source, st, line) == st.(user := st.user + [KindOf(line).text])
    ensures PromptWaits(OnLine(source, st, line))
  {
    JoinSnoc(st.user, KindOf(line).text);
    InkStays(Join(st.user), "\n" + KindOf(line).text);
  }

  lemma PromptIsFlushed(source: string, st: State, line: string)
    requires PromptWaits(st) && !KindOf(line).Prompt?
    ensures st.out + [Next(st, UserPrompt(Join(st.user)))] <= OnLine(source, st, line).out
  {
    FlushOnlyAdds(FlushUser(st));
  }

  lemma PromptAtTheEnd(st: State)
    requires PromptWaits(st)
    ensures st.out + [Next(st, UserPrompt(Join(st.user)))] == Flush(st).out <= Finish(st).out
  {
  }

  lemma {:induction false} PromptComesNext(source: string, st: State, more: seq<string>, text: string)
    requires PromptWaits(st) && text == Join(st.user + FollowingPrompts(more))
    ensures st.out + [Next(st, UserPrompt(text))] <= ToTheEnd(source, st, more)
    decreases |more|
  {
    if more == [] {
      assert st.user + [] == st.user;
      PromptAtTheEnd(st);
    } else if KindOf(more[0]).Prompt? {
      PromptGoesOn(source, st, more[0]);
      Regroup(st.user, [KindOf(more[0]).text], FollowingPrompts(more[1..]));
      PromptComesNext(source, OnLine(source, st, more[0]), more[1..], text);
    } else {
      assert st.user + [] == st.user;
      PromptIsFlushed(source, st, more[0]);
      EmittedNext(source, st, more, Next(st, UserPrompt(text)));
    }
  }

  // ---- an answer that waits ------------------------------------------------------------------------------

  /** An answer waits that will be emitted. */
  predicate AnswerWaits(st: State) {
    Ready(st) && st.user == [] && st.model != [] && !Blank(Join(st.model))
  }

  predicate GoesIntoAnswer(line: string) {
    KindOf(line).Gap? || KindOf(line).Prose?
  }

  /** What a line adds to an answer that waits: a blank one only its end of line. */
  function Taken(line: string): string {
    if KindOf(line).Prose? then line else ""
  }

  function FollowingText(more: seq<string>): seq<string>
    decreases |more|
  {
    if more != [] && GoesIntoAnswer(more[0]) then [Taken(more[0])] + FollowingText(more[1..]) else []
  }

  /** The first line that is not blank is prose. */
  predicate ResumesProse(more: seq<string>)
    decreases |more|
  {
    more != [] && (KindOf(more[0]).Prose? || (KindOf(more[0]).Gap? && ResumesProse(more[1..])))
  }

  lemma AnswerGoesOn(source: string, st: State, line: string)
    requires AnswerWaits(st) && GoesIntoAnswer(line)
    ensures OnLine(source, st, line) == st.(model := st.model + [Taken(line)])
    ensures AnswerWaits(OnLine(source, st, line))
  {
    JoinSnoc(st.model, Taken(line));
    InkStays(Join(st.model), "\n" + Taken(line));
  }

  lemma AnswerIsFlushed(source: string, st: State, line: string)
    requires AnswerWaits(st) && !GoesIntoAnswer(line)
    ensures st.out + [Next(st, ModelResponse(Trim(Join(st.model))))] <= OnLine(source, st, line).out
  {
    assert FlushUser(st) == st;
  }

  lemma AnswerAtTheEnd(st: State)
    requires AnswerWaits(st)
    ensures st.out + [Next(st, ModelResponse(Trim(Join(st.model))))] == Flush(st).out <= Finish(st).out
  {
    assert FlushUser(st) == st;
  }

  lemma {:induction false} AnswerComesNext(source: string, st: State, more: seq<string>, text: string)
    requires AnswerWaits(st) && text == Trim(Join(st.model + FollowingText(more)))
    ensures st.out + [Next(st, ModelResponse(text))] <= ToTheEnd(source, st, more)
    decreases |more|
  {
    if more == [] {
      assert st.model + [] == st.model;
      AnswerAtTheEnd(st);
    } else if GoesIntoAnswer(more[0]) {
      AnswerGoesOn(source, st, more[0]);
      Regroup(st.model, [Taken(more[0])], FollowingText(more[1..]));
      AnswerComesNext(source, OnLine(source, st, more[0]), more[1..], text);
    } else {
      assert st.model + [] == st.model;
      AnswerIsFlushed(source, st, more[0]);
      EmittedNext(source, st, more, Next(st, ModelResponse(text)));
    }
  }

  // ---- what trimming makes of an answer that goes on -------------------------------------------------------

  lemma {:induction false} TrimStartOfMore(a: string, b: string)
    requires !Blank(a)
    ensures TrimStart(a + b) == TrimStart(a) + b && !Blank(TrimStart(a))
  {
    if IsSpace(a[0]) {
      assert (a + b)[1..] == a[1..] + b;
      TrimStartOfMore(a[1..], b);
    }
  }

  lemma {:induction false} TrimEndOfMore(a: string, b: string)
    requires !Blank(b)
    ensures TrimEnd(a + b) == a + TrimEnd(b) && TrimEnd(b) != ""
  {
    if IsSpace(b[|b| - 1]) {
      assert (a + b)[..|a + b| - 1] == a + b[..|b| - 1];
      TrimEndOfMore(a, b[..|b| - 1]);
    }
  }

  lemma {:induction false} TrimEndShortens(s: string)
    ensures |TrimEnd(s)| <= |s|
  {
    if s != "" && IsSpace(s[|s| - 1]) {
      TrimEndShortens(s[..|s| - 1]);
    }
  }

  lemma {:induction false} TrimEndOfBlank(a: string, b: string)
    requires Blank(b)
    ensures TrimEnd(a + b) == TrimEnd(a)
  {
    if b == "" {
      assert a + b == a;
    } else {
      assert (a + b)[..|a + b| - 1] == a + b[..|b| - 1];
      TrimEndOfBlank(a, b[..|b| - 1]);
    }
  }

  /** Adding to a text that is not blank leaves what trimming makes of it exactly when only white space is added, and
      lengthens it otherwise. */
  lemma TrimOfMore(a: string, b: string)
    requires !Blank(a)
    ensures if Blank(b) then Trim(a + b) == Trim(a) else |Trim(a)| < |Trim(a + b)|
  {
    TrimStartOfMore(a, b);
    if Blank(b) {
      TrimEndOfBlank(TrimStart(a), b);
    } else {
      TrimEndOfMore(TrimStart(a), b);
      TrimEndShortens(TrimStart(a));
    }
  }

  lemma ProseIsNotBlank(line: string)
    requires KindOf(line).Prose?
    ensures !Blank(line)
  {
  }

  lemma BlankParts(a: string, b: string)
    ensures Blank("\n" + a + b) <==> Blank(a) && Blank(b)
  {
    var s := "\n" + a + b;
    if Blank(s) {
      forall i | 0 <= i < |a| ensures IsSpace(a[i]) { assert s[i + 1] == a[i]; }
      forall i | 0 <= i < |b| ensures IsSpace(b[i]) { assert s[i + 1 + |a|] == b[i]; }
    }
  }

  lemma {:induction false} FollowingTextHasInk(more: seq<string>)
    ensures !Blank(Added(FollowingText(more))) <==> ResumesProse(more)
    decreases |more|
  {
    if more != [] && GoesIntoAnswer(more[0]) {
      var rest := FollowingText(more[1..]);
      assert FollowingText(more)[1..] == rest;
      BlankParts(Taken(more[0]), Added(rest));
      FollowingTextHasInk(more[1..]);
      if KindOf(more[0]).Prose? {
        ProseIsNotBlank(more[0]);
      }
    }
  }

  // ---- what the end of the file adds -----------------------------------------------------------------------

  function WaitingContent(st: State): seq<Event> {
    if PromptWaits(st) then [UserPrompt(Join(st.user))]
    else if AnswerWaits(st) then [ModelResponse(Trim(Join(st.model)))]
    else []
  }

  /** At the end of the file comes what waits, if anything, and then nothing that is content. */
  lemma EndAdds(source: string, st: State)
    requires Settled(source, st)
    ensures WaitingContent(st) == [] || st.session.Some?
    ensures var out, n := Finish(st).out, |st.out|;
            && st.out <= out
            && (WaitingContent(st) != [] ==> st.out + [Next(st, WaitingContent(st)[0])] <= out)
            && forall i :: n + |WaitingContent(st)| <= i < |out| ==> !out[i].event.IsContent()
  {
    FlushOnlyAdds(st);
    if PromptWaits(st) {
      PromptAtTheEnd(st);
    } else if AnswerWaits(st) {
      AnswerAtTheEnd(st);
    }
  }

  /** The prompt or answer at the end of the file is not complete yet: prompt lines follow the prompt or, after any
      number of blank lines, prose follows the answer. */
  predicate GoesOn(st: State, more: seq<string>) {
    || (PromptWaits(st) && more != [] && KindOf(more[0]).Prompt?)
    || (AnswerWaits(st) && ResumesProse(more))
  }

  /** The same event, or a prompt or answer with a longer text. */
  predicate GrownFrom(e: Event, f: Event) {
    || e == f
    || (e.UserPrompt? && f.UserPrompt? && |e.text| < |f.text|)
    || (e.ModelResponse? && f.ModelResponse? && |e.text| < |f.text|)
  }

  lemma PromptGrows(st: State, more: seq<string>, text: string)
    requires PromptWaits(st) && text == Join(st.user + FollowingPrompts(more))
    ensures if FollowingPrompts(more) == [] then Join(st.user) == text else |Join(st.user)| < |text|
  {
    JoinOfMore(st.user, FollowingPrompts(more));
  }

  lemma AnswerGrows(st: State, more: seq<string>, text: string)
    requires AnswerWaits(st) && text == Trim(Join(st.model + FollowingText(more)))
    ensures if ResumesProse(more) then |Trim(Join(st.model))| < |text| else Trim(Join(st.model)) == text
  {
    JoinOfMore(st.model, FollowingText(more));
    FollowingTextHasInk(more);
    TrimOfMore(Join(st.model), Added(FollowingText(more)));
  }

  lemma WaitingContentComesNext(source: string, st: State, more: seq<string>) returns (f: Event)
    requires Ready(st) && WaitingContent(st) != []
    ensures st.session.Some? && st.out + [Next(st, f)] <= ToTheEnd(source, st, more)
    ensures GrownFrom(WaitingContent(st)[0], f) && (WaitingContent(st)[0] == f <==> !GoesOn(st, more))
  {
    if PromptWaits(st) {
      var text := Join(st.user + FollowingPrompts(more));
      PromptComesNext(source, st, more, text);
      PromptGrows(st, more, text);
      f := UserPrompt(text);
    } else {
      var text := Trim(Join(st.model + FollowingText(more)));
      AnswerComesNext(source, st, more, text);
      AnswerGrows(st, more, text);
      f := ModelResponse(text);
    }
  }

  // ---- main results --------------------------------------------------------------------------------------

  /** Content keeps its place, id and time in every longer history, and its text unless it is the last prompt or
      answer and goes on. */
  lemma ContentKeepsItsPlace(source: string, lines: seq<string>, more: seq<string>, i: nat)
    requires i < |Translation(source, lines)| && Translation(source, lines)[i].event.IsContent()
    ensures var out, all, st := Translation(source, lines), Translation(source, lines + more), Body(source, lines);
            && i < |all| && all[i] == out[i].(event := all[i].event)
            && GrownFrom(out[i].event, all[i].event)
            && (out[i] == all[i] <==> !(i == |st.out| && GoesOn(st, more)))
  {
    var st := Body(source, lines);
    BodySettles(source, lines);
    BodyOnward(source, lines, more);
    EmittedStays(source, st, more);
    EndAdds(source, st);
    if i >= |st.out| {
      var f := WaitingContentComesNext(source, st, more);
      assert Translation(source, lines + more)[|st.out|] == Next(st, f);
    }
  }

  function Content(out: seq<Envelope>): seq<Envelope> {
    if out == [] then []
    else Content(out[..|out| - 1]) + if out[|out| - 1].event.IsContent() then [out[|out| - 1]] else []
  }

  lemma {:induction false} ContentOfMore(a: seq<Envelope>, b: seq<Envelope>)
    ensures Content(a + b) == Content(a) + Content(b)
  {
    if b == [] {
      assert a + b == a;
    } else {
      var before := b[..|b| - 1];
      ContentOfMore(a, before);
      assert (a + b)[..|a + b| - 1] == a + before;
    }
  }

  lemma {:induction false} NoContent(out: seq<Envelope>)
    requires forall i :: 0 <= i < |out| ==> !out[i].event.IsContent()
    ensures Content(out) == []
  {
    if out != [] {
      NoContent(out[..|out| - 1]);
    }
  }

  lemma ContentOfPrefix(a: seq<Envelope>, out: seq<Envelope>)
    requires a <= out
    ensures Content(a) <= Content(out)
  {
    PrefixAndRest(a, out);
    ContentOfMore(a, out[|a|..]);
  }

  lemma OnlyTheFirstPart(a: seq<Envelope>, out: seq<Envelope>)
    requires a <= out && forall i :: |a| <= i < |out| ==> !out[i].event.IsContent()
    ensures Content(out) == Content(a)
  {
    PrefixAndRest(a, out);
    ContentOfMore(a, out[|a|..]);
    NoContent(out[|a|..]);
  }

  lemma ContentSnoc(out: seq<Envelope>, env: Envelope)
    requires env.event.IsContent()
    ensures Content(out + [env]) == Content(out) + [env]
  {
    assert (out + [env])[..|out|] == out;
  }

  /** The prompts, answers and edits of a history are the first of those of a longer one exactly when the last prompt
      or answer does not go on. */
  lemma HistoriesExtendExactlyWhen(source: string, lines: seq<string>, more: seq<string>)
    ensures Content(Translation(source, lines)) <= Content(Translation(source, lines + more))
            <==> !GoesOn(Body(source, lines), more)
  {
    BodySettles(source, lines);
    BodyOnward(source, lines, more);
    ReadingOnExtendsExactlyWhen(source, Body(source, lines), more);
  }

  lemma ReadingOnExtendsExactlyWhen(source: string, st: State, more: seq<string>)
    requires Settled(source, st)
    ensures Content(Finish(st).out) <= Content(ToTheEnd(source, st, more)) <==> !GoesOn(st, more)
  {
    var out, all := Finish(st).out, ToTheEnd(source, st, more);
    EndAdds(source, st);
    if WaitingContent(st) == [] {
      OnlyTheFirstPart(st.out, out);
      EmittedStays(source, st, more);
      ContentOfPrefix(st.out, all);
    } else {
      var f := WaitingContentComesNext(source, st, more);
      var env, env' := Next(st, WaitingContent(st)[0]), Next(st, f);
      OnlyTheFirstPart(st.out + [env], out);
      ContentOfPrefix(st.out + [env'], all);
      ContentSnoc(st.out, env);
      ContentSnoc(st.out, env');
      assert Content(out)[|Content(st.out)|] == env && Content(all)[|Content(st.out)|] == env';
    }
  }
}
