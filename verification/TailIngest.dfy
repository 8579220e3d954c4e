/** What capturing a Claude Code session poll by poll leaves in the day index. */
module TailIngest {
  import opened Basics
  import opened Events
  import opened EventIds
  import opened Store
  import opened Ingest
  import opened ClaudeCode
  import opened Tail
  import opened TailLabels
  import Replay

  // ---- keys --------------------------------------------------------------------------------------------

  predicate DistinctLines(lines: seq<Line>) {
    forall i, j :: 0 <= i < j < |lines| ==> lines[i].BaseId() != lines[j].BaseId()
  }

  /** The envelope is an event of one of the lines. */
  ghost predicate OfALine(env: Envelope, lines: seq<Line>) {
    exists l, n: nat :: 0 <= l < |lines| && env.eventId == Some(Numbered(lines[l].BaseId(), n))
  }

  lemma LineIds(names: Names, line: Line)
    ensures var out := LineOut(names, line);
            forall i :: 0 <= i < |out| ==> out[i].eventId == Some(Numbered(line.BaseId(), i))
  {
    StampedEvents(line, Spoken(line) + BlocksSaid(names, BlocksOf(line)));
  }

  lemma OfMoreLines(env: Envelope, before: seq<Line>, lines: seq<Line>)
    requires before <= lines && OfALine(env, before)
    ensures OfALine(env, lines)
  {
    var l, n: nat :| 0 <= l < |before| && env.eventId == Some(Numbered(before[l].BaseId(), n));
    assert lines[l] == before[l];
  }

  lemma LineIsApart(env: Envelope, before: seq<Line>, line: Line, n: nat)
    requires OfALine(env, before) && forall l :: 0 <= l < |before| ==> before[l].BaseId() != line.BaseId()
    ensures env.eventId != Some(Numbered(line.BaseId(), n))
  {
    var l, m: nat :| 0 <= l < |before| && env.eventId == Some(Numbered(before[l].BaseId(), m));
    IdsAreDistinct(before[l].BaseId(), m, line.BaseId(), n);
  }

  lemma {:induction false} EventsOfLines(names: Names, lines: seq<Line>)
    ensures forall i :: 0 <= i < |EventsOf(names, lines)| ==> OfALine(EventsOf(names, lines)[i], lines)
  {
    if lines != [] {
      var before, last := lines[..|lines| - 1], lines[|lines| - 1];
      var head, tail := EventsOf(names, before), LineOut(NamesAfter(names, before), last);
      EventsOfLines(names, before);
      LineIds(NamesAfter(names, before), last);
      forall i | 0 <= i < |head + tail| ensures OfALine((head + tail)[i], lines) {
        if i < |head| {
          OfMoreLines(head[i], before, lines);
        } else {
          assert (head + tail)[i].eventId == Some(Numbered(lines[|lines| - 1].BaseId(), i - |head|));
        }
      }
    }
  }

  lemma LineIsDistinct(names: Names, line: Line)
    ensures Replay.DistinctKeys(LineOut(names, line))
  {
    var out := LineOut(names, line);
    LineIds(names, line);
    forall i, j | 0 <= i < j < |out| ensures KeyOf(out[i]) != KeyOf(out[j]) {
      IdsAreDistinct(line.BaseId(), i, line.BaseId(), j);
    }
  }

  lemma DistinctTogether(head: seq<Envelope>, tail: seq<Envelope>)
    requires Replay.DistinctKeys(head) && Replay.DistinctKeys(tail)
    requires forall i, j :: 0 <= i < |head| && 0 <= j < |tail| ==> KeyOf(head[i]) != KeyOf(tail[j])
    ensures Replay.DistinctKeys(head + tail)
  {
  }

  lemma {:induction false} EventsAreDistinct(names: Names, lines: seq<Line>)
    requires DistinctLines(lines)
    ensures Replay.DistinctKeys(EventsOf(names, lines))
  {
    if lines != [] {
      var before, last := lines[..|lines| - 1], lines[|lines| - 1];
      var head, tail := EventsOf(names, before), LineOut(NamesAfter(names, before), last);
      EventsAreDistinct(names, before);
      EventsOfLines(names, before);
      LineIsDistinct(NamesAfter(names, before), last);
      forall i, j | 0 <= i < |head| && 0 <= j < |tail| ensures KeyOf(head[i]) != KeyOf(tail[j]) {
        LineIds(NamesAfter(names, before), last);
        LineIsApart(head[i], before, last, j);
      }
      DistinctTogether(head, tail);
    }
  }

  /** The ids a chunk adds to those of its lines end in a letter. */
  lemma MarksAreApart(base: string, n: nat, other: string, word: string)
    requires word != "" && !IsDigit(word[|word| - 1])
    ensures Numbered(base, n) != other + word
  {
    var a, b := Numbered(base, n), other + word;
    assert a[|a| - 1] == Decimal(n)[|Decimal(n)| - 1] && b[|b| - 1] == word[|word| - 1];
  }

  lemma OfALineIsUnmarked(env: Envelope, lines: seq<Line>, other: string, word: string)
    requires OfALine(env, lines) && word != "" && !IsDigit(word[|word| - 1])
    ensures env.eventId != Some(other + word)
  {
    var l, n: nat :| 0 <= l < |lines| && env.eventId == Some(Numbered(lines[l].BaseId(), n));
    MarksAreApart(lines[l].BaseId(), n, other, word);
  }

  lemma StartIsNotCheckpoint(base: string, session: string)
    ensures base + "#start" != session + "#checkpoint"
  {
    var a, b := base + "#start", session + "#checkpoint";
    assert a[|a| - 2] == 'r' && b[|b| - 2] == 'n';
  }

  lemma ChunkIsDistinct(talk: seq<Line>, announce: bool)
    requires DistinctLines(talk)
    ensures Replay.DistinctKeys(ChunkOut(talk, announce))
  {
    if talk != [] {
      var events, session := EventsOf(map[], talk), talk[|talk| - 1].Session();
      EventsAreDistinct(map[], talk);
      EventsOfLines(map[], talk);
      StartIsNotCheckpoint(talk[0].BaseId(), session);
      forall i | 0 <= i < |events|
        ensures events[i].eventId != Some(talk[0].BaseId() + "#start")
                && events[i].eventId != Some(session + "#checkpoint")
      {
        OfALineIsUnmarked(events[i], talk, talk[0].BaseId(), "#start");
        OfALineIsUnmarked(events[i], talk, session, "#checkpoint");
      }
      Wrapped(Announced(talk, announce), events, CheckpointOf(session));
    }
  }

  lemma Wrapped(head: seq<Envelope>, events: seq<Envelope>, last: Envelope)
    requires |head| <= 1 && Replay.DistinctKeys(events)
    requires head != [] ==> KeyOf(head[0]) != KeyOf(last)
    requires forall i :: 0 <= i < |events| ==> KeyOf(events[i]) != KeyOf(last)
    requires head != [] ==> forall i :: 0 <= i < |events| ==> KeyOf(events[i]) != KeyOf(head[0])
    ensures Replay.DistinctKeys(head + events + [last])
  {
  }

  // ---- what is carried ---------------------------------------------------------------------------------

  lemma CarriesWrapped(head: seq<Envelope>, events: seq<Envelope>, last: Envelope, today: string, date: string,
                       key: EventKey)
    requires |head| <= 1 && (head != [] ==> !head[0].event.IsContent()) && !last.event.IsContent()
    ensures Replay.Carries(head + events + [last], today, date, key) <==> Replay.Carries(events, today, date, key)
  {
    var out := head + events + [last];
    if Replay.Carries(events, today, date, key) {
      var i :| 0 <= i < |events| && Replay.CarriedBy(events[i], today, date, key);
      assert Replay.CarriedBy(out[|head| + i], today, date, key);
    }
    if Replay.Carries(out, today, date, key) {
      var i :| 0 <= i < |out| && Replay.CarriedBy(out[i], today, date, key);
      assert Replay.CarriedBy(events[i - |head|], today, date, key);
    }
  }

  lemma ChunkCarries(talk: seq<Line>, announce: bool, today: string, date: string, key: EventKey)
    ensures Replay.Carries(ChunkOut(talk, announce), today, date, key) <==>
            Replay.Carries(EventsOf(map[], talk), today, date, key)
  {
    if talk != [] {
      CarriesWrapped(Announced(talk, announce), EventsOf(map[], talk), CheckpointOf(talk[|talk| - 1].Session()),
                     today, date, key);
    }
  }

  /** Labels do not matter to the day index. */
  lemma SameCarries(a: seq<Envelope>, b: seq<Envelope>, today: string, date: string, key: EventKey)
    requires SameButLabels(a, b) && (forall i :: 0 <= i < |b| ==> b[i].eventId.Some?)
    ensures Replay.Carries(a, today, date, key) <==> Replay.Carries(b, today, date, key)
  {
  }

  predicate SomeCarries(parts: seq<seq<Envelope>>, today: string, date: string, key: EventKey) {
    exists k :: 0 <= k < |parts| && Replay.Carries(parts[k], today, date, key)
  }

  lemma FlatCarries(parts: seq<seq<Envelope>>, today: string, date: string, key: EventKey)
    ensures Replay.Carries(Flat(parts), today, date, key) <==> SomeCarries(parts, today, date, key)
  {
    if Replay.Carries(Flat(parts), today, date, key) {
      var at :| 0 <= at < |Flat(parts)| && Replay.CarriedBy(Flat(parts)[at], today, date, key);
      var k, i := OfFlat(parts, at);
      assert Replay.CarriedBy(parts[k][i], today, date, key);
    }
    if k :| 0 <= k < |parts| && Replay.Carries(parts[k], today, date, key) {
      var i :| 0 <= i < |parts[k]| && Replay.CarriedBy(parts[k][i], today, date, key);
      var at := InFlat(parts, k, i);
      assert Replay.CarriedBy(Flat(parts)[at], today, date, key);
    }
  }

  lemma {:induction false} PiecesAt(chunks: seq<seq<Line>>, k: nat)
    requires k < |chunks|
    ensures Pieces(chunks)[k] == EventsOf(map[], chunks[k])
  {
    if k < |chunks| - 1 {
      PiecesAt(chunks[..|chunks| - 1], k);
    }
  }

  lemma {:induction false} TalksAt(parse: Parser, texts: seq<seq<Byte>>, k: nat)
    requires k < |texts|
    ensures Talks(parse, texts)[k] == Conversation(parse, texts[k])
  {
    if k < |texts| - 1 {
      TalksAt(parse, texts[..|texts| - 1], k);
    }
  }

  lemma {:induction false} PartsAreDistinct(parts: seq<seq<Line>>, k: nat)
    requires k < |parts| && DistinctLines(Flat(parts))
    ensures DistinctLines(parts[k])
  {
    var before, last := parts[..|parts| - 1], parts[|parts| - 1];
    assert Flat(before) + last == Flat(parts);
    if k == |before| {
      assert forall i :: 0 <= i < |last| ==> last[i] == Flat(parts)[|Flat(before)| + i];
    } else {
      assert forall i :: 0 <= i < |Flat(before)| ==> Flat(before)[i] == Flat(parts)[i];
      PartsAreDistinct(before, k);
    }
  }

  lemma EventsHaveIds(names: Names, lines: seq<Line>)
    ensures forall i :: 0 <= i < |EventsOf(names, lines)| ==> EventsOf(names, lines)[i].eventId.Some?
  {
    EventsOfLines(names, lines);
  }

  lemma WholeCarries(chunks: seq<seq<Line>>, today: string, date: string, key: EventKey)
    ensures Replay.Carries(EventsOf(map[], Flat(chunks)), today, date, key) <==>
            SomeCarries(Pieces(chunks), today, date, key)
  {
    ChunksMatchTheWhole(chunks);
    EventsHaveIds(map[], Flat(chunks));
    SameCarries(Flat(Pieces(chunks)), EventsOf(map[], Flat(chunks)), today, date, key);
    FlatCarries(Pieces(chunks), today, date, key);
  }

  /** What poll `k` brings to the day index is what its lines carry. */
  lemma PollBrings(parse: Parser, looks: seq<Look>, file: seq<Byte>, k: nat, stream: seq<Item>,
                   today: string, date: string, key: EventKey)
    requires Growing(looks, file) && |Outs(parse, looks)| == |TakenTexts(looks)| && k < |TakenTexts(looks)|
    requires Replay.Delivers(stream, Outs(parse, looks)[k], today)
    requires DistinctLines(Talks(parse, TakenTexts(looks))[k])
    ensures Replay.Brings(stream, date, key) <==>
            Replay.Carries(Pieces(Talks(parse, TakenTexts(looks)))[k], today, date, key)
  {
    var texts := TakenTexts(looks);
    OutsOfTexts(parse, looks, file, k);
    TalksAt(parse, texts, k);
    PiecesAt(Talks(parse, texts), k);
    var talk, announce := Conversation(parse, texts[k]), Flat(texts[..k]) == [];
    ChunkIsDistinct(talk, announce);
    Replay.DistinctBring(stream, ChunkOut(talk, announce), today, date, key);
    ChunkCarries(talk, announce, today, date, key);
  }

  lemma WholeBrings(parse: Parser, file: seq<Byte>, whole: seq<Item>, today: string, date: string, key: EventKey)
    requires Replay.Delivers(whole, PollOut(parse, file, 0), today)
    requires DistinctLines(Conversation(parse, file[..Complete(file)]))
    ensures Replay.Brings(whole, date, key) <==>
            Replay.Carries(EventsOf(map[], Conversation(parse, file[..Complete(file)])), today, date, key)
  {
    var talk := Conversation(parse, file[..Complete(file)]);
    assert file[0..] == file;
    ChunkIsDistinct(talk, true);
    Replay.DistinctBring(whole, ChunkOut(talk, true), today, date, key);
    ChunkCarries(talk, true, today, date, key);
  }

  /** The polls of a file that has grown to this, and what they hand to the ingest, on any days. */
  ghost predicate ArePolls(parse: Parser, looks: seq<Look>, file: seq<Byte>, streams: seq<seq<Item>>, today: string) {
    && Growing(looks, file) && looks != [] && looks[|looks| - 1] == Look(file, true)
    && DistinctLines(Conversation(parse, file[..Complete(file)]))
    && |streams| == |Outs(parse, looks)|
    && forall k :: 0 <= k < |streams| ==> Replay.Delivers(streams[k], Outs(parse, looks)[k], today)
  }

  /** What the polls bring together is what all complete lines carry. */
  lemma PollsBring(parse: Parser, looks: seq<Look>, file: seq<Byte>, streams: seq<seq<Item>>,
                   today: string, date: string, key: EventKey)
    requires ArePolls(parse, looks, file, streams, today)
    ensures Replay.SomeBrings(streams, date, key) <==>
            Replay.Carries(EventsOf(map[], Conversation(parse, file[..Complete(file)])), today, date, key)
  {
    var talks := Talks(parse, TakenTexts(looks));
    var pieces := Pieces(talks);
    NoOuts(parse, looks);
    EveryLineOnce(parse, looks, file);
    WholeCarries(talks, today, date, key);
    forall k | 0 <= k < |streams|
      ensures Replay.Brings(streams[k], date, key) <==> Replay.Carries(pieces[k], today, date, key)
    {
      PartsAreDistinct(talks, k);
      PollBrings(parse, looks, file, k, streams[k], today, date, key);
    }
  }

  /** Capturing a session poll by poll files what one read of it files.  Whatever the schedule of appends, polls and
      failed polls, and over however many days, once a poll has seen the whole file the day index holds the same entries
      as after one ingest of the file, provided no two of its lines share an id and no ingest skipped anything - even
      where a start went missing or a tool result lost its label. */
  lemma CaptureFilesTheWhole(parse: Parser, looks: seq<Look>, file: seq<Byte>, s: Tier,
                             streams: seq<seq<Item>>, whole: seq<Item>, today: string, date: string, key: EventKey)
    requires ArePolls(parse, looks, file, streams, today)
    requires Replay.Delivers(whole, PollOut(parse, file, 0), today)
    requires Replay.CleanPasses(s, streams) && Replay.Clean(s, whole)
    ensures DayContains(Replay.Passes(s, streams), date, key) <==> DayContains(IngestAll(s, whole).store, date, key)
  {
    PollsBring(parse, looks, file, streams, today, date, key);
    WholeBrings(parse, file, whole, today, date, key);
    Replay.PassesFile(s, streams, date, key);
    Replay.IngestFiles(s, whole, date, key);
  }

  // ---- lines that share an id ----------------------------------------------------------------------------

  /** A call and then a text, in two lines with one id. */
  predicate CallThenText(a: Line, b: Line) {
    && a.BaseId() == b.BaseId() && a.Session() == b.Session()
    && a.content.Blocks? && |a.content.blocks| == 1 && a.content.blocks[0].ToolUse? && b.content.Plain?
  }

  lemma CallOut(line: Line)
    requires line.content.Blocks? && |line.content.blocks| == 1 && line.content.blocks[0].ToolUse?
    ensures |LineOut(map[], line)| == 1 && LineOut(map[], line)[0].event.ToolCallStarted?
  {
    var blocks := line.content.blocks;
    assert blocks[..0] == [] && blocks[1..] == [];
    assert Passages(blocks) == [] && Spoken(line) == [];
    assert BlocksSaid(map[], blocks) == BlockSaid(map[], blocks[0]);
  }

  lemma TextLineOut(names: Names, line: Line)
    requires line.content.Plain?
    ensures |LineOut(names, line)| == 1 && LineOut(names, line)[0].event.IsContent()
  {
  }

  lemma OfItsSession(names: Names, line: Line, i: nat)
    requires i < |LineOut(names, line)|
    ensures SessionOf(LineOut(names, line)[i]) == SessionKey(HOST_ID, line.Session())
    ensures KeyOf(LineOut(names, line)[i]) == ById(Numbered(line.BaseId(), i))
  {
    StampedEvents(line, Spoken(line) + BlocksSaid(names, BlocksOf(line)));
  }

  lemma OneLine(line: Line)
    ensures EventsOf(map[], [line]) == LineOut(map[], line)
  {
    assert [line][..0] == [];
  }

  lemma TwoLines(a: Line, b: Line)
    ensures EventsOf(map[], [a, b]) == LineOut(map[], a) + LineOut(NamesAfter(map[], [a]), b)
  {
    assert [a, b][..1] == [a];
    OneLine(a);
  }

  lemma TextAloneIsBrought(b: Line, second: seq<Item>, today: string)
    requires b.content.Plain? && Replay.Delivers(second, ChunkOut([b], false), today)
    ensures second != [] && second[0].Key() == ById(Numbered(b.BaseId(), 0))
    ensures Replay.Brings(second, second[0].Date(), second[0].Key())
  {
    OneLine(b);
    TextLineOut(map[], b);
    OfItsSession(map[], b, 0);
    assert ChunkOut([b], false)[0] == LineOut(map[], b)[0];
    assert Replay.First(second, 0);
  }

  /** Four events: a start, the call, the text under the call's key, and the request for a checkpoint. */
  lemma WholeOfTwo(a: Line, b: Line)
    requires CallThenText(a, b)
    ensures var out := ChunkOut([a, b], true);
            && |out| == 4 && !out[0].event.IsContent() && !out[1].event.IsContent() && !out[3].event.IsContent()
            && KeyOf(out[1]) == KeyOf(out[2]) && SessionOf(out[1]) == SessionOf(out[2])
  {
    var names := NamesAfter(map[], [a]);
    TwoLines(a, b);
    CallOut(a);
    TextLineOut(names, b);
    OfItsSession(map[], a, 0);
    OfItsSession(names, b, 0);
    var out := ChunkOut([a, b], true);
    assert out[1] == LineOut(map[], a)[0] && out[2] == LineOut(names, b)[0];
  }

  lemma TextBehindTheCallIsNot(a: Line, b: Line, whole: seq<Item>, today: string, date: string, key: EventKey)
    requires CallThenText(a, b) && Replay.Delivers(whole, ChunkOut([a, b], true), today)
    ensures !Replay.Brings(whole, date, key)
  {
    WholeOfTwo(a, b);
    assert whole[..2][1] == whole[1];
    assert !Replay.First(whole, 2);
  }

  /** Such lines are told apart when they fall to two polls and not when they are read at once: the polls file the text
      that one read leaves out. */
  lemma SharedIdsNeedNotConverge(s: Tier, a: Line, b: Line, first: seq<Item>, second: seq<Item>, whole: seq<Item>,
                                 today: string)
    requires CallThenText(a, b)
    requires Replay.Delivers(first, ChunkOut([a], true), today) && Replay.Delivers(second, ChunkOut([b], false), today)
    requires Replay.Delivers(whole, ChunkOut([a, b], true), today)
    requires Replay.CleanPasses(s, [first, second]) && Replay.Clean(s, whole)
    requires second != [] ==> !DayContains(s, second[0].Date(), second[0].Key())
    ensures second != [] && DayContains(Replay.Passes(s, [first, second]), second[0].Date(), second[0].Key())
    ensures !DayContains(IngestAll(s, whole).store, second[0].Date(), second[0].Key())
  {
    TextAloneIsBrought(b, second, today);
    var passes, date, key := [first, second], second[0].Date(), second[0].Key();
    assert Replay.Brings(passes[1], date, key);
    Replay.PassesFile(s, passes, date, key);
    TextBehindTheCallIsNot(a, b, whole, today, date, key);
    Replay.IngestFiles(s, whole, date, key);
  }
}
