/** What capturing a Claude Code session poll by poll does to the pairing of tool results with their arguments: each
    poll is ingested on its own, so a result finds only the calls its own poll announced. */
module TailPairing {
  import opened Basics
  import opened Events
  import opened EventIds
  import opened Store
  import opened Ingest
  import opened ClaudeCode
  import opened Tail
  import opened TailLabels
  import opened TailIngest
  import opened ChunkPairing
  import opened Pairing
  import opened Filing
  import Replay

  /** The id of a start or of a request for a checkpoint. */
  ghost predicate IsMark(env: Envelope) {
    exists other :: env.eventId == Some(other + "#start") || env.eventId == Some(other + "#checkpoint")
  }

  lemma ChunkIds(talk: seq<Line>, announce: bool, j: nat)
    requires j < |ChunkOut(talk, announce)|
    ensures OfALine(ChunkOut(talk, announce)[j], talk) || IsMark(ChunkOut(talk, announce)[j])
  {
    var head, events := ClaudeCode.Announced(talk, announce), EventsOf(map[], talk);
    var last := CheckpointOf(talk[|talk| - 1].Session());
    EventsOfLines(map[], talk);
    OneOfThree(head, events, last, j);
    StartIsMark(talk[0]);
    CheckpointIsMark(talk[|talk| - 1].Session());
  }

  lemma StartIsMark(line: Line)
    ensures IsMark(ClaudeCode.StartOf(line))
  {
    assert ClaudeCode.StartOf(line).eventId == Some(line.BaseId() + "#start");
  }

  lemma CheckpointIsMark(session: string)
    ensures IsMark(CheckpointOf(session))
  {
    assert CheckpointOf(session).eventId == Some(session + "#checkpoint");
  }

  lemma {:induction false} LinesOfPartsAreApart(parts: seq<seq<Line>>, m: nat, k: nat, i: nat, j: nat)
    requires DistinctLines(Flat(parts)) && m < k < |parts| && i < |parts[m]| && j < |parts[k]|
    ensures parts[m][i].BaseId() != parts[k][j].BaseId()
  {
    var before := parts[..|parts| - 1];
    var all := Flat(parts);
    if k < |before| {
      forall a, b | 0 <= a < b < |Flat(before)| ensures Flat(before)[a].BaseId() != Flat(before)[b].BaseId() {
        assert all[a] == Flat(before)[a] && all[b] == Flat(before)[b];
      }
      LinesOfPartsAreApart(before, m, k, i, j);
    } else {
      var at := InFlat(before, m, i);
      assert all[at] == parts[m][i] && all[|Flat(before)| + j] == parts[k][j];
    }
  }

  lemma LineOfLaterPart(parts: seq<seq<Line>>, m: nat, k: nat, a: Envelope, b: Envelope)
    requires DistinctLines(Flat(parts)) && m < k < |parts| && OfALine(a, parts[m]) && OfALine(b, parts[k])
    ensures a.eventId != b.eventId
  {
    var j, n: nat :| 0 <= j < |parts[k]| && b.eventId == Some(Numbered(parts[k][j].BaseId(), n));
    forall i | 0 <= i < |parts[m]| ensures parts[m][i].BaseId() != parts[k][j].BaseId() {
      LinesOfPartsAreApart(parts, m, k, i, j);
    }
    LineIsApart(a, parts[m], parts[k][j], n);
  }

  lemma MarkOfLaterPart(lines: seq<Line>, a: Envelope, b: Envelope)
    requires OfALine(a, lines) && IsMark(b)
    ensures a.eventId != b.eventId
  {
    var other :| b.eventId == Some(other + "#start") || b.eventId == Some(other + "#checkpoint");
    OfALineIsUnmarked(a, lines, other, "#start");
    OfALineIsUnmarked(a, lines, other, "#checkpoint");
  }

  lemma EventsOfPartsAreApart(parts: seq<seq<Line>>, m: nat, k: nat, a: Envelope, b: Envelope)
    requires DistinctLines(Flat(parts)) && m < k < |parts|
    requires OfALine(a, parts[m]) && (OfALine(b, parts[k]) || IsMark(b))
    ensures KeyOf(a) != KeyOf(b)
  {
    if OfALine(b, parts[k]) {
      LineOfLaterPart(parts, m, k, a, b);
    } else {
      MarkOfLaterPart(parts[m], a, b);
    }
  }

  lemma EarlierPollsBringOther(parse: Parser, looks: seq<Look>, file: seq<Byte>, streams: seq<seq<Item>>, today: string,
                               m: nat, k: nat, j: nat, date: string)
    requires ArePolls(parse, looks, file, streams, today) && m < k < |streams| && j < |streams[k]|
    ensures !Replay.Brings(streams[m], date, streams[k][j].Key())
  {
    var texts := TakenTexts(looks);
    var talks, key := Talks(parse, texts), streams[k][j].Key();
    NoOuts(parse, looks);
    EveryLineOnce(parse, looks, file);
    OutsOfTexts(parse, looks, file, k);
    TalksAt(parse, texts, k);
    ChunkIds(talks[k], Flat(texts[..k]) == [], j);
    PartsAreDistinct(talks, m);
    PollBrings(parse, looks, file, m, streams[m], today, date, key);
    PiecesAt(talks, m);
    EventsOfLines(map[], talks[m]);
    if Replay.Brings(streams[m], date, key) {
      var i :| 0 <= i < |Pieces(talks)[m]| && Replay.CarriedBy(Pieces(talks)[m][i], today, date, key);
      EventsOfPartsAreApart(talks, m, k, Pieces(talks)[m][i], streams[k][j].env);
    }
  }

  lemma PollIsDistinct(parse: Parser, looks: seq<Look>, file: seq<Byte>, streams: seq<seq<Item>>, today: string, k: nat)
    requires ArePolls(parse, looks, file, streams, today) && k < |streams|
    ensures DistinctKeys(streams[k])
  {
    var texts := TakenTexts(looks);
    NoOuts(parse, looks);
    EveryLineOnce(parse, looks, file);
    OutsOfTexts(parse, looks, file, k);
    TalksAt(parse, texts, k);
    PartsAreDistinct(Talks(parse, texts), k);
    ChunkIsDistinct(Conversation(parse, texts[k]), Flat(texts[..k]) == []);
  }

  /** No poll finds anything of its own filed, if nothing was before the first. */
  lemma PollsAreNew(parse: Parser, looks: seq<Look>, file: seq<Byte>, s: Tier, streams: seq<seq<Item>>,
                    today: string, k: nat)
    requires ArePolls(parse, looks, file, streams, today) && k < |streams|
    requires Replay.CleanPasses(s, streams) && KnownUpTo(s, streams[k], 0)
    ensures KnownUpTo(Replay.Passes(s, streams[..k]), streams[k], 0)
  {
    var before := streams[..k];
    forall m | 0 <= m < k ensures Replay.Clean(Replay.Passes(s, before[..m]), before[m]) {
      PrefixOfPrefix(streams, k, m);
    }
    forall j, date | 0 <= j < |streams[k]| ensures !DayContains(Replay.Passes(s, before), date, streams[k][j].Key()) {
      Replay.PassesFile(s, before, date, streams[k][j].Key());
      forall m | 0 <= m < k ensures !Replay.Brings(before[m], date, streams[k][j].Key()) {
        EarlierPollsBringOther(parse, looks, file, streams, today, m, k, j, date);
      }
    }
  }

  /** Content stays filed as what its own poll makes of it: a result with the oldest unused arguments among the calls
      its own poll announced before it. */
  lemma PollsPairOnTheirOwn(parse: Parser, looks: seq<Look>, file: seq<Byte>, s: Tier, streams: seq<seq<Item>>,
                            today: string,
                            k: nat, i: nat)
    requires ArePolls(parse, looks, file, streams, today) && k < |streams| && i < |streams[k]|
    requires Replay.CleanPasses(s, streams) && KnownUpTo(s, streams[k], 0) && streams[k][i].env.event.IsContent()
    ensures Readable(streams[k][i])
    ensures NodeAt(Replay.Passes(s, streams), streams[k][i])
            == Some(ContentNode(streams[k][i], InputIn(Envs(streams[k]), i, 0)))
  {
    PollIsDistinct(parse, looks, file, streams, today, k);
    PollsAreNew(parse, looks, file, s, streams, today, k);
    InOneGo(Replay.Passes(s, streams[..k]), streams[k], i);
    NextPass(s, streams, k);
    NewIsKnown(Replay.Passes(s, streams[..k]), streams[k], i);
    KnownNodesLast(s, streams, k + 1, streams[k][i]);
  }

  lemma NewIsKnown(s: Tier, t: seq<Item>, i: nat)
    requires DistinctKeys(t) && i < |t| && Replay.Clean(s, t) && t[i].env.event.IsContent()
    ensures Known(IngestAll(s, t).store, t[i])
  {
    assert forall j :: 0 <= j < i ==> t[..i][j] == t[j];
    assert Replay.First(t, i);
    Replay.IngestFiles(s, t, t[i].Date(), t[i].Key());
  }

  lemma WholeIsDistinct(parse: Parser, file: seq<Byte>, whole: seq<Item>, today: string)
    requires DistinctLines(Conversation(parse, file[..Complete(file)]))
             && Replay.Delivers(whole, PollOut(parse, file, 0), today)
    ensures DistinctKeys(whole)
  {
    assert file[0..] == file;
    ChunkIsDistinct(Conversation(parse, file[..Complete(file)]), true);
  }

  // ---- a poll's events in the whole ----------------------------------------------------------------------

  lemma PollIsAChunk(parse: Parser, looks: seq<Look>, file: seq<Byte>, streams: seq<seq<Item>>, today: string, k: nat)
    returns (announce: bool)
    requires ArePolls(parse, looks, file, streams, today) && k < |streams|
    ensures k < |Talks(parse, TakenTexts(looks))|
    ensures Envs(streams[k]) == ChunkOut(Talks(parse, TakenTexts(looks))[k], announce)
  {
    var texts := TakenTexts(looks);
    NoOuts(parse, looks);
    OutsOfTexts(parse, looks, file, k);
    TalksAt(parse, texts, k);
    announce := Flat(texts[..k]) == [];
  }

  lemma WholeIsAChunk(parse: Parser, looks: seq<Look>, file: seq<Byte>, whole: seq<Item>, today: string)
    requires Growing(looks, file) && looks != [] && looks[|looks| - 1] == Look(file, true)
    requires Replay.Delivers(whole, PollOut(parse, file, 0), today)
    ensures Envs(whole) == ChunkOut(Flat(Talks(parse, TakenTexts(looks))), true)
  {
    assert file[0..] == file;
    EveryLineOnce(parse, looks, file);
  }

  /** The same content but for labels is filed as the same node exactly when it is no result, or has the same label and
      the same arguments. */
  lemma SameNodeExactlyWhen(it: Item, other: Item, input: string, input': string)
    requires it.env.event.IsContent() && !it.env.event.IsFile() && Unlabelled(it.env) == Unlabelled(other.env)
    ensures other.env.event.IsContent() && !other.env.event.IsFile()
    ensures ContentNode(it, input) == ContentNode(other, input')
            <==> (it.env.event.ToolCallFinished? ==> it.env.event.tool == other.env.event.tool && input == input')
  {
  }

  // ---- main results --------------------------------------------------------------------------------------

  lemma StoredByBoth(s: Tier, streams: seq<seq<Item>>, whole: seq<Item>, k: nat, i: nat, at: nat)
    requires k < |streams| && i < |streams[k]| && at < |whole| && streams[k][i].env.event.IsContent()
    requires !streams[k][i].env.event.IsFile() && Unlabelled(streams[k][i].env) == Unlabelled(whole[at].env)
    requires streams[k][i].Key() == whole[at].Key() && streams[k][i].Date() == whole[at].Date()
    requires NodeAt(Replay.Passes(s, streams), streams[k][i])
             == Some(ContentNode(streams[k][i], InputIn(Envs(streams[k]), i, 0)))
    requires DistinctKeys(whole) && Replay.Clean(s, whole) && KnownUpTo(s, whole, 0)
    ensures NodeAt(Replay.Passes(s, streams), whole[at]) == NodeAt(IngestAll(s, whole).store, whole[at]) <==>
            (streams[k][i].env.event.ToolCallFinished? ==>
               && streams[k][i].env.event.tool == whole[at].env.event.tool
               && InputIn(Envs(streams[k]), i, 0) == InputIn(Envs(whole), at, 0))
  {
    SameNodeExactlyWhen(streams[k][i], whole[at], InputIn(Envs(streams[k]), i, 0), InputIn(Envs(whole), at, 0));
    InOneGo(s, whole, at);
    assert NodeAt(Replay.Passes(s, streams), streams[k][i]) == NodeAt(Replay.Passes(s, streams), whole[at]);
  }

  lemma SameEntry(it: Item, other: Item, envs: seq<Envelope>, others: seq<Envelope>, today: string, i: nat, at: nat)
    requires i < |envs| && at < |others| && it.env == envs[i] && other.env == others[at]
    requires it.env.event.IsContent() && !Dated(it.env) ==> it.today == today
    requires other.env.event.IsContent() && !Dated(other.env) ==> other.today == today
    requires it.env.event.IsContent() && it.env.eventId.Some? && Unlabelled(it.env) == Unlabelled(other.env)
    ensures it.Key() == other.Key() && it.Date() == other.Date()
  {
  }

  lemma EventsHaveMates(chunks: seq<seq<Line>>, k: nat, e: nat)
    requires k < |chunks| && e < |EventsAlone(chunks, k)|
    ensures e < |EventsHere(chunks, k)|
    ensures var env, mate := EventsAlone(chunks, k)[e], EventsHere(chunks, k)[e];
            Unlabelled(env) == Unlabelled(mate) && env.eventId.Some? && !env.event.IsFile()
  {
    ReadAlone(chunks, k);
    EventsHaveIds(map[], chunks[k]);
    EventsAreOrdinary(map[], chunks[k]);
  }

  /** What is stored of an event captured by a poll is what one ingest of the whole file stores of it, unless it is a
      result that pairs otherwise when the lines of its poll are read on their own. */
  lemma CapturePairsExactlyWhen(parse: Parser, looks: seq<Look>, file: seq<Byte>, s: Tier, streams: seq<seq<Item>>,
                                whole: seq<Item>, today: string, k: nat, i: nat)
    returns (e: nat, at: nat)
    requires ArePolls(parse, looks, file, streams, today) && Replay.Delivers(whole, PollOut(parse, file, 0), today)
    requires k < |streams| && i < |streams[k]| && streams[k][i].env.event.IsContent()
    requires Replay.CleanPasses(s, streams) && Replay.Clean(s, whole)
    requires KnownUpTo(s, streams[k], 0) && KnownUpTo(s, whole, 0)
    ensures StandsAlone(Envs(streams[k]), i, Talks(parse, TakenTexts(looks)), k, e)
    ensures StandsInTheWhole(Envs(whole), at, Talks(parse, TakenTexts(looks)), k, e)
    ensures Unlabelled(streams[k][i].env) == Unlabelled(whole[at].env)
    ensures NodeAt(Replay.Passes(s, streams), whole[at]) == NodeAt(IngestAll(s, whole).store, whole[at]) <==>
            (whole[at].env.event.ToolCallFinished? ==> PairsAlike(Talks(parse, TakenTexts(looks)), k, e))
  {
    var talks := Talks(parse, TakenTexts(looks));
    e, at := WhereItStands(parse, looks, file, streams, whole, today, k, i);
    var announce := PollIsAChunk(parse, looks, file, streams, today, k);
    PollsPairOnTheirOwn(parse, looks, file, s, streams, today, k, i);
    WholeIsDistinct(parse, file, whole, today);
    SameEntry(streams[k][i], whole[at], Outs(parse, looks)[k], PollOut(parse, file, 0), today, i, at);
    StoredByBoth(s, streams, whole, k, i, at);
    if whole[at].env.event.ToolCallFinished? {
      PairedAlike(Envs(streams[k]), i, Envs(whole), at, talks, k, e);
    }
  }

  lemma WhereItStands(parse: Parser, looks: seq<Look>, file: seq<Byte>, streams: seq<seq<Item>>, whole: seq<Item>,
                      today: string, k: nat, i: nat)
    returns (e: nat, at: nat)
    requires ArePolls(parse, looks, file, streams, today) && Replay.Delivers(whole, PollOut(parse, file, 0), today)
    requires k < |streams| && i < |streams[k]| && streams[k][i].env.event.IsContent()
    ensures StandsAlone(Envs(streams[k]), i, Talks(parse, TakenTexts(looks)), k, e)
    ensures StandsInTheWhole(Envs(whole), at, Talks(parse, TakenTexts(looks)), k, e)
    ensures Unlabelled(streams[k][i].env) == Unlabelled(whole[at].env)
    ensures streams[k][i].env.eventId.Some? && !streams[k][i].env.event.IsFile()
  {
    var talks := Talks(parse, TakenTexts(looks));
    var announce := PollIsAChunk(parse, looks, file, streams, today, k);
    WholeIsAChunk(parse, looks, file, whole, today);
    e := ContentStandsAlone(talks, k, announce, i);
    EventsHaveMates(talks, k, e);
    at := EventsStandInTheWhole(talks, k, e);
  }

  lemma PairedAlike(out: seq<Envelope>, i: nat, whole: seq<Envelope>, at: nat, chunks: seq<seq<Line>>, k: nat, e: nat)
    requires StandsAlone(out, i, chunks, k, e) && StandsInTheWhole(whole, at, chunks, k, e)
    requires out[i].event.ToolCallFinished? && Unlabelled(out[i]) == Unlabelled(whole[at])
    ensures PairsAlike(chunks, k, e) <==>
            out[i].event.tool == whole[at].event.tool && InputIn(out, i, 0) == InputIn(whole, at, 0)
  {
  }

  /** So a poll that splits no call stores what one ingest of the file stores, but for results that find fewer results
      of their tool before them in the poll that found nothing than calls were waiting where the poll begins.  Where
      the arguments can be told apart, those are stored otherwise. */
  lemma UnsplitPollsPairExactlyWhen(parse: Parser, looks: seq<Look>, file: seq<Byte>, s: Tier, streams: seq<seq<Item>>,
                                    whole: seq<Item>, today: string, k: nat, i: nat)
    returns (e: nat, at: nat)
    requires ArePolls(parse, looks, file, streams, today) && Replay.Delivers(whole, PollOut(parse, file, 0), today)
    requires k < |streams| && i < |streams[k]| && streams[k][i].env.event.IsContent()
    requires Replay.CleanPasses(s, streams) && Replay.Clean(s, whole)
    requires KnownUpTo(s, streams[k], 0) && KnownUpTo(s, whole, 0)
    requires k < |Talks(parse, TakenTexts(looks))| && !SplitsACall(Talks(parse, TakenTexts(looks)), k)
    ensures StandsAlone(Envs(streams[k]), i, Talks(parse, TakenTexts(looks)), k, e)
    ensures StandsInTheWhole(Envs(whole), at, Talks(parse, TakenTexts(looks)), k, e)
    ensures whole[at].env == streams[k][i].env
    ensures var same := NodeAt(Replay.Passes(s, streams), whole[at]) == NodeAt(IngestAll(s, whole).store, whole[at]);
            var env, talks := whole[at].env, Talks(parse, TakenTexts(looks));
            if !env.event.ToolCallFinished? then same
            else
              && (NoneMissed(talks, k, e, env) ==> same)
              && (AllDifferent(MayBeGiven(talks, k, e, env)) ==> (same <==> NoneMissed(talks, k, e, env)))
  {
    var talks := Talks(parse, TakenTexts(looks));
    e, at := CapturePairsExactlyWhen(parse, looks, file, s, streams, whole, today, k, i);
    ReadAlone(talks, k);
    if whole[at].env.event.ToolCallFinished? {
      UnsplitChunksPairExactlyWhen(talks, k, e);
    }
  }
}
