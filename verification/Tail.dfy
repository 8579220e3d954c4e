/** Reading a growing Claude Code transcript a poll at a time, against reading it whole. */
module Tail {
  import opened Basics
  import opened Events
  import opened ClaudeCode

  // ---- text and lines ----------------------------------------------------------------------------------

  predicate EndsLine(text: seq<Byte>) {
    text == [] || text[|text| - 1] == NEWLINE
  }

  lemma {:induction false} CompleteEndsLine(text: seq<Byte>)
    ensures EndsLine(text[..Complete(text)]) && NEWLINE !in text[Complete(text)..]
  {
    if !EndsLine(text) {
      var n := |text| - 1;
      CompleteEndsLine(text[..n]);
      assert text[..n][..Complete(text)] == text[..Complete(text)];
      assert text[Complete(text)..] == text[..n][Complete(text)..] + [text[n]];
    } else {
      assert text[..|text|] == text;
    }
  }

  lemma {:induction false} CompleteAfter(head: seq<Byte>, text: seq<Byte>)
    requires EndsLine(head)
    ensures Complete(head + text) == |head| + Complete(text)
  {
    if text == [] {
      assert head + text == head;
    } else if text[|text| - 1] != NEWLINE {
      CompleteAfter(head, text[..|text| - 1]);
      assert (head + text)[..|head + text| - 1] == head + text[..|text| - 1];
    }
  }

  lemma FirstLineIsUnique(text: seq<Byte>, n: nat)
    requires n < |text| && text[n] == NEWLINE && NEWLINE !in text[..n]
    ensures FirstLine(text) == n
  {
  }

  lemma FirstLineAfter(head: seq<Byte>, text: seq<Byte>)
    requires EndsLine(head) && head != []
    ensures FirstLine(head + text) == FirstLine(head) < |head|
    ensures (head + text)[..FirstLine(head)] == head[..FirstLine(head)]
    ensures AfterFirstLine(head + text) == AfterFirstLine(head) + text
    ensures EndsLine(AfterFirstLine(head))
  {
    var n := FirstLine(head);
    assert head[..|head|] == head;
    assert (head + text)[..n] == head[..n];
    FirstLineIsUnique(head + text, n);
    assert (head + text)[n + 1..] == head[n + 1..] + text;
  }

  lemma {:induction false} LinesAfter(parse: Parser, head: seq<Byte>, text: seq<Byte>)
    requires EndsLine(head)
    ensures LinesOf(parse, head + text) == LinesOf(parse, head) + LinesOf(parse, text)
    decreases |head|
  {
    if head == [] {
      assert head + text == text;
    } else {
      FirstLineAfter(head, text);
      LinesAfter(parse, AfterFirstLine(head), text);
      Regroup(Parsed(parse, head[..FirstLine(head)]), LinesOf(parse, AfterFirstLine(head)), LinesOf(parse, text));
    }
  }

  lemma {:induction false} TalkAfter(head: seq<Line>, lines: seq<Line>)
    ensures Talk(head + lines) == Talk(head) + Talk(lines)
  {
    if lines == [] {
      assert head + lines == head;
    } else {
      var n := |lines| - 1;
      TalkAfter(head, lines[..n]);
      assert (head + lines)[..|head| + n] == head + lines[..n];
      Regroup(Talk(head), Talk(lines[..n]), if lines[n].Talks() then [lines[n]] else []);
    }
  }

  // ---- a schedule of polls -----------------------------------------------------------------------------

  /** What a poll finds: the file as it is at that moment, and whether it can be read at all. */
  datatype Look = Look(file: seq<Byte>, ok: bool)

  predicate Growing(looks: seq<Look>, file: seq<Byte>) {
    && (forall i :: 0 <= i < |looks| ==> looks[i].file <= file)
    && (forall i, j :: 0 <= i < j < |looks| ==> looks[i].file <= looks[j].file)
  }

  function Offset(looks: seq<Look>): nat {
    if looks == [] then 0
    else
      var before, last := looks[..|looks| - 1], looks[|looks| - 1];
      if last.ok then OffsetAfter(last.file, Offset(before)) else Offset(before)
  }

  /** The texts the readable polls take in. */
  function TakenTexts(looks: seq<Look>): seq<seq<Byte>> {
    if looks == [] then []
    else
      var before, last := looks[..|looks| - 1], looks[|looks| - 1];
      TakenTexts(before) + if last.ok then [Taken(last.file, Offset(before))] else []
  }

  /** What they hand to the ingest. */
  function Outs(parse: Parser, looks: seq<Look>): seq<seq<Envelope>> {
    if looks == [] then []
    else
      var before, last := looks[..|looks| - 1], looks[|looks| - 1];
      Outs(parse, before) + if last.ok then [PollOut(parse, last.file, Offset(before))] else []
  }

  lemma OnePoll(file: seq<Byte>, at: nat)
    requires at <= |file| && EndsLine(file[..at])
    ensures OffsetAfter(file, at) == Complete(file)
    ensures file[..at] + Taken(file, at) == file[..Complete(file)] && EndsLine(file[..Complete(file)])
  {
    var rest := file[at..];
    assert file[..at] + rest == file;
    CompleteAfter(file[..at], rest);
    CompleteEndsLine(file);
  }

  /** The offset marks exactly what was taken, up to the end of a line; after a readable poll nothing complete is
      left. */
  lemma {:induction false} TextsAreContiguous(looks: seq<Look>, file: seq<Byte>)
    requires Growing(looks, file)
    ensures Offset(looks) <= |file| && Flat(TakenTexts(looks)) == file[..Offset(looks)]
            && EndsLine(file[..Offset(looks)])
    ensures looks != [] && looks[|looks| - 1] == Look(file, true) ==> Offset(looks) == Complete(file)
  {
    if looks != [] {
      var before, last := looks[..|looks| - 1], looks[|looks| - 1];
      TextsAreContiguous(before, last.file);
      assert last.file[..Offset(before)] == file[..Offset(before)];
      if last.ok {
        OnePoll(last.file, Offset(before));
        FlatSnoc(TakenTexts(before), Taken(last.file, Offset(before)));
        assert last.file[..Complete(last.file)] == file[..Complete(last.file)];
      } else {
        assert TakenTexts(before) + [] == TakenTexts(before);
      }
    }
  }

  /** The conversation in each text. */
  function Talks(parse: Parser, texts: seq<seq<Byte>>): (talks: seq<seq<Line>>)
    ensures |talks| == |texts|
  {
    if texts == [] then []
    else Talks(parse, texts[..|texts| - 1]) + [Conversation(parse, texts[|texts| - 1])]
  }

  lemma {:induction false} TextsEndLines(looks: seq<Look>)
    ensures forall k :: 0 <= k < |TakenTexts(looks)| ==> EndsLine(TakenTexts(looks)[k])
  {
    if looks != [] {
      var before, last := looks[..|looks| - 1], looks[|looks| - 1];
      TextsEndLines(before);
      CompleteEndsLine(last.file[From(last.file, Offset(before))..]);
    }
  }

  lemma ConversationAfter(parse: Parser, head: seq<Byte>, text: seq<Byte>)
    requires EndsLine(head)
    ensures Conversation(parse, head + text) == Conversation(parse, head) + Conversation(parse, text)
  {
    LinesAfter(parse, head, text);
    TalkAfter(LinesOf(parse, head), LinesOf(parse, text));
  }

  lemma {:induction false} FlatEndsLine(texts: seq<seq<Byte>>)
    requires forall k :: 0 <= k < |texts| ==> EndsLine(texts[k])
    ensures EndsLine(Flat(texts))
  {
    if texts != [] {
      FlatEndsLine(texts[..|texts| - 1]);
    }
  }

  lemma {:induction false} TalksAreContiguous(parse: Parser, texts: seq<seq<Byte>>)
    requires forall k :: 0 <= k < |texts| ==> EndsLine(texts[k])
    ensures Flat(Talks(parse, texts)) == Conversation(parse, Flat(texts))
  {
    if texts == [] {
      assert Talk([]) == [];
    } else {
      var before, last := texts[..|texts| - 1], texts[|texts| - 1];
      TalksAreContiguous(parse, before);
      FlatEndsLine(before);
      ConversationAfter(parse, Flat(before), last);
      FlatSnoc(Talks(parse, before), Conversation(parse, last));
    }
  }

  /** Every complete line is translated once, in order: after a readable poll, the polls' conversations are together
      that of all complete lines of the file. */
  lemma EveryLineOnce(parse: Parser, looks: seq<Look>, file: seq<Byte>)
    requires Growing(looks, file)
    requires looks != [] && looks[|looks| - 1] == Look(file, true)
    ensures Flat(Talks(parse, TakenTexts(looks))) == Conversation(parse, file[..Complete(file)])
    ensures Offset(looks) == Complete(file)
  {
    TextsAreContiguous(looks, file);
    TextsEndLines(looks);
    TalksAreContiguous(parse, TakenTexts(looks));
  }

  /** A file that has become shorter than the offset is read afresh, and announced again. */
  lemma ShrunkFilesAreReadAfresh(parse: Parser, file: seq<Byte>, offset: nat)
    requires offset > |file|
    ensures PollOut(parse, file, offset) == TextOut(parse, file[..Complete(file)], true)
    ensures OffsetAfter(file, offset) == Complete(file)
  {
    assert file[0..] == file;
  }

  /** Each poll hands on its own text, and announces the session when nothing was taken before it. */
  lemma {:induction false} OutsOfTexts(parse: Parser, looks: seq<Look>, file: seq<Byte>, k: nat)
    requires Growing(looks, file) && k < |TakenTexts(looks)|
    ensures |Outs(parse, looks)| == |TakenTexts(looks)|
    ensures Outs(parse, looks)[k] == TextOut(parse, TakenTexts(looks)[k], Flat(TakenTexts(looks)[..k]) == [])
  {
    var before, last := looks[..|looks| - 1], looks[|looks| - 1];
    TextsAreContiguous(before, last.file);
    if k < |TakenTexts(before)| {
      OutsOfTexts(parse, before, last.file, k);
      assert TakenTexts(looks)[..k] == TakenTexts(before)[..k];
    } else {
      if k > 0 {
        OutsOfTexts(parse, before, last.file, 0);
      } else {
        NoOuts(parse, before);
      }
      assert TakenTexts(looks)[..k] == TakenTexts(before);
    }
  }

  lemma {:induction false} NoOuts(parse: Parser, looks: seq<Look>)
    ensures |Outs(parse, looks)| == |TakenTexts(looks)|
  {
    if looks != [] {
      NoOuts(parse, looks[..|looks| - 1]);
    }
  }

  // ---- announcing the session --------------------------------------------------------------------------

  /** What lines become: prompts, responses, calls and results. */
  predicate Ordinary(e: Event) {
    e.UserPrompt? || e.ModelResponse? || e.ToolCallStarted? || e.ToolCallFinished?
  }

  lemma {:induction false} BlocksAreOrdinary(names: Names, blocks: seq<Block>)
    ensures forall i :: 0 <= i < |BlocksSaid(names, blocks)| ==> Ordinary(BlocksSaid(names, blocks)[i])
    decreases |blocks|
  {
    if blocks != [] {
      BlocksAreOrdinary(NamesAfterBlock(names, blocks[0]), blocks[1..]);
    }
  }

  lemma {:induction false} StampedEvents(line: Line, events: seq<Event>)
    ensures forall i :: 0 <= i < |events| ==> Stamped(line, events)[i] == EventAt(line, i, events[i])
  {
    if events != [] {
      StampedEvents(line, events[..|events| - 1]);
    }
  }

  lemma LineIsOrdinary(names: Names, line: Line)
    ensures forall i :: 0 <= i < |LineOut(names, line)| ==> Ordinary(LineOut(names, line)[i].event)
  {
    BlocksAreOrdinary(names, BlocksOf(line));
    StampedEvents(line, Spoken(line) + BlocksSaid(names, BlocksOf(line)));
  }

  lemma {:induction false} EventsAreOrdinary(names: Names, lines: seq<Line>)
    ensures forall i :: 0 <= i < |EventsOf(names, lines)| ==> Ordinary(EventsOf(names, lines)[i].event)
  {
    if lines != [] {
      var before := lines[..|lines| - 1];
      EventsAreOrdinary(names, before);
      LineIsOrdinary(NamesAfter(names, before), lines[|lines| - 1]);
    }
  }

  predicate Announces(out: seq<Envelope>) {
    exists j :: 0 <= j < |out| && out[j].event.SessionStarted?
  }

  /** A chunk announces the session first or not at all, and only if it is to and has conversation. */
  lemma ChunkAnnounces(talk: seq<Line>, announce: bool)
    ensures Announces(ChunkOut(talk, announce)) <==> announce && talk != []
    ensures forall j :: 0 < j < |ChunkOut(talk, announce)| ==> !ChunkOut(talk, announce)[j].event.SessionStarted?
  {
    var out := ChunkOut(talk, announce);
    if talk != [] {
      var head, events := Announced(talk, announce), EventsOf(map[], talk);
      EventsAreOrdinary(map[], talk);
      assert forall j :: |head| <= j < |head| + |events| ==> out[j] == events[j - |head|];
      assert announce ==> out[0].event.SessionStarted?;
    }
  }

  lemma {:induction false} FlatOfPrefix(texts: seq<seq<Byte>>, j: nat, k: nat)
    requires j < k <= |texts| && texts[j] != []
    ensures Flat(texts[..k]) != []
  {
    assert texts[..k][..k - 1] == texts[..k - 1];
    if j < k - 1 {
      FlatOfPrefix(texts, j, k - 1);
    }
  }

  /** Text `k` has conversation and nothing was taken before it. */
  predicate OpensTheSession(parse: Parser, texts: seq<seq<Byte>>, k: nat)
    requires k < |texts|
  {
    Flat(texts[..k]) == [] && Conversation(parse, texts[k]) != []
  }

  /** The polls together announce the session at most once, as the first thing they say, and they do exactly when
      the first complete lines that were found have conversation in them. */
  lemma AnnouncedAtMostOnce(parse: Parser, looks: seq<Look>, file: seq<Byte>)
    requires Growing(looks, file)
    ensures var texts, outs := TakenTexts(looks), Outs(parse, looks);
            && |outs| == |texts|
            && (forall k :: 0 <= k < |outs| ==> (Announces(outs[k]) <==> OpensTheSession(parse, texts, k)))
            && (forall k, i :: 0 <= k < |outs| && 0 < i < |outs[k]| ==> !outs[k][i].event.SessionStarted?)
            && (forall j, k :: 0 <= j < k < |outs| && Announces(outs[j]) ==> !Announces(outs[k]))
  {
    var texts, outs := TakenTexts(looks), Outs(parse, looks);
    NoOuts(parse, looks);
    forall k | 0 <= k < |outs|
      ensures Announces(outs[k]) <==> OpensTheSession(parse, texts, k)
      ensures forall i :: 0 < i < |outs[k]| ==> !outs[k][i].event.SessionStarted?
    {
      OutsOfTexts(parse, looks, file, k);
      ChunkAnnounces(Conversation(parse, texts[k]), Flat(texts[..k]) == []);
    }
    forall j, k | 0 <= j < k < |outs| && Announces(outs[j]) ensures !Announces(outs[k]) {
      NoConversationInNothing(parse);
      FlatOfPrefix(texts, j, k);
    }
  }

  lemma NoConversationInNothing(parse: Parser)
    ensures Conversation(parse, []) == []
  {
    assert Talk([]) == [];
  }

  /** So the start of a session can go missing: whenever the first poll finds complete lines but no conversation yet,
      no later poll announces the session, though reading the same file in one go does. */
  lemma AStartCanGoMissing(parse: Parser, head: seq<Byte>, looks: seq<Look>, file: seq<Byte>)
    requires head != [] && EndsLine(head) && Conversation(parse, head) == []
    requires Growing([Look(head, true)] + looks, file)
    ensures forall k :: 0 <= k < |Outs(parse, [Look(head, true)] + looks)| ==>
              !Announces(Outs(parse, [Look(head, true)] + looks)[k])
  {
    var all := [Look(head, true)] + looks;
    FirstTextIs(head, looks);
    AnnouncedAtMostOnce(parse, all, file);
    var texts := TakenTexts(all);
    forall k | 0 <= k < |texts| ensures !OpensTheSession(parse, texts, k) {
      if k > 0 {
        FlatOfPrefix(texts, 0, k);
      }
    }
  }

  lemma {:induction false} FirstTextIs(head: seq<Byte>, looks: seq<Look>)
    requires EndsLine(head)
    ensures TakenTexts([Look(head, true)] + looks) != [] && TakenTexts([Look(head, true)] + looks)[0] == head
  {
    var all := [Look(head, true)] + looks;
    if looks == [] {
      assert all[..0] == [] && head[0..] == head && head[..|head|] == head;
    } else {
      FirstTextIs(head, looks[..|looks| - 1]);
      assert all[..|looks|] == [Look(head, true)] + looks[..|looks| - 1];
    }
  }

  lemma WholeReadsAnnounce(parse: Parser, file: seq<Byte>)
    ensures Announces(PollOut(parse, file, 0)) <==> Conversation(parse, file[..Complete(file)]) != []
  {
    assert file[0..] == file;
    ChunkAnnounces(Conversation(parse, file[..Complete(file)]), true);
  }
}
