/** Lines of a Claude Code session that share an id: exactly when capturing them poll by poll still files what one read
    of the file files. */
module SharedIds {
  import opened Basics
  import opened Events
  import opened Store
  import opened Ingest
  import opened ClaudeCode
  import opened Tail
  import opened TailLabels
  import opened TailIngest
  import Replay

  /** Event `i` is the first of its session with its key. */
  predicate FirstOf(envs: seq<Envelope>, i: nat)
    requires i < |envs|
  {
    forall j :: 0 <= j < i ==> SessionOf(envs[j]) != SessionOf(envs[i]) || KeyOf(envs[j]) != KeyOf(envs[i])
  }

  /** Event `i` brings the entry. */
  predicate BringsAt(envs: seq<Envelope>, i: nat, today: string, date: string, key: EventKey) {
    i < |envs| && FirstOf(envs, i) && Replay.CarriedBy(envs[i], today, date, key)
  }

  /** The events bring an entry: the first of some session with this key is content with this date. */
  ghost predicate BringEntry(envs: seq<Envelope>, today: string, date: string, key: EventKey) {
    exists i: nat :: BringsAt(envs, i, today, date, key)
  }

  lemma FirstDelivered(items: seq<Item>, envs: seq<Envelope>, today: string, i: nat)
    requires Replay.Delivers(items, envs, today) && i < |items|
    ensures Replay.First(items, i) <==> FirstOf(envs, i)
  {
    assert forall j :: 0 <= j < i ==> items[..i][j] == items[j];
    if !FirstOf(envs, i) {
      var j :| 0 <= j < i && SessionOf(envs[j]) == SessionOf(envs[i]) && KeyOf(envs[j]) == KeyOf(envs[i]);
      assert items[..i][j].Session() == items[i].Session() && items[..i][j].Key() == items[i].Key();
    }
  }

  lemma DeliveredBring(items: seq<Item>, envs: seq<Envelope>, today: string, date: string, key: EventKey)
    requires Replay.Delivers(items, envs, today)
    ensures Replay.Brings(items, date, key) <==> BringEntry(envs, today, date, key)
  {
    forall i: nat | i < |items|
      ensures (Replay.First(items, i) && items[i].env.event.IsContent() && items[i].Date() == date
              && items[i].Key() == key)
              <==> BringsAt(envs, i, today, date, key)
    {
      FirstDelivered(items, envs, today, i);
      if envs[i].event.IsContent() {
        Replay.DeliveredDates(items, envs, today, i);
      }
    }
  }

  // ---- one chunk -------------------------------------------------------------------------------------------

  lemma FirstBehind(head: seq<Envelope>, envs: seq<Envelope>, i: nat)
    requires i < |envs| && forall h :: 0 <= h < |head| ==> KeyOf(head[h]) != KeyOf(envs[i])
    ensures FirstOf(head + envs, |head| + i) <==> FirstOf(envs, i)
  {
    var all := head + envs;
    forall j | 0 <= j < i ensures all[|head| + j] == envs[j] {}
    if FirstOf(all, |head| + i) {
      forall j | 0 <= j < i ensures SessionOf(envs[j]) != SessionOf(envs[i]) || KeyOf(envs[j]) != KeyOf(envs[i]) {
        assert all[|head| + j] == envs[j];
      }
    }
  }

  predicate KeysApart(head: seq<Envelope>, envs: seq<Envelope>) {
    forall h, i :: 0 <= h < |head| && 0 <= i < |envs| ==> KeyOf(head[h]) != KeyOf(envs[i])
  }

  predicate NoContent(envs: seq<Envelope>) {
    forall h :: 0 <= h < |envs| ==> !envs[h].event.IsContent()
  }

  lemma BringsAtBehind(head: seq<Envelope>, envs: seq<Envelope>, i: nat, today: string, date: string, key: EventKey)
    requires KeysApart(head, envs) && i < |envs|
    ensures BringsAt(head + envs, |head| + i, today, date, key) <==> BringsAt(envs, i, today, date, key)
  {
    FirstBehind(head, envs, i);
  }

  lemma BringBehind(head: seq<Envelope>, envs: seq<Envelope>, today: string, date: string, key: EventKey)
    requires NoContent(head) && KeysApart(head, envs)
    ensures BringEntry(head + envs, today, date, key) <==> BringEntry(envs, today, date, key)
  {
    if BringEntry(envs, today, date, key) {
      var i: nat :| BringsAt(envs, i, today, date, key);
      BringsAtBehind(head, envs, i, today, date, key);
    }
    if BringEntry(head + envs, today, date, key) {
      var i: nat :| BringsAt(head + envs, i, today, date, key);
      NotInHead(head, envs, i);
      BringsAtBehind(head, envs, i - |head|, today, date, key);
    }
  }

  lemma NotInHead(head: seq<Envelope>, envs: seq<Envelope>, i: nat)
    requires NoContent(head) && i < |head + envs| && (head + envs)[i].event.IsContent()
    ensures i >= |head|
  {
  }

  lemma FirstBefore(envs: seq<Envelope>, more: seq<Envelope>, i: nat)
    requires i < |envs|
    ensures FirstOf(envs + more, i) <==> FirstOf(envs, i)
  {
    assert forall j :: 0 <= j <= i ==> (envs + more)[j] == envs[j];
  }

  lemma BringBefore(envs: seq<Envelope>, last: Envelope, today: string, date: string, key: EventKey)
    requires !last.event.IsContent()
    ensures BringEntry(envs + [last], today, date, key) <==> BringEntry(envs, today, date, key)
  {
    if BringEntry(envs, today, date, key) {
      var i: nat :| BringsAt(envs, i, today, date, key);
      BringsAtBefore(envs, [last], i, today, date, key);
    }
    if BringEntry(envs + [last], today, date, key) {
      var i: nat :| BringsAt(envs + [last], i, today, date, key);
      assert i < |envs|;
      BringsAtBefore(envs, [last], i, today, date, key);
    }
  }

  lemma BringsAtBefore(envs: seq<Envelope>, more: seq<Envelope>, i: nat, today: string, date: string, key: EventKey)
    requires i < |envs|
    ensures BringsAt(envs + more, i, today, date, key) <==> BringsAt(envs, i, today, date, key)
  {
    FirstBefore(envs, more, i);
  }

  lemma StartIsApart(talk: seq<Line>, announce: bool)
    ensures NoContent(Announced(talk, announce)) && KeysApart(Announced(talk, announce), EventsOf(map[], talk))
  {
    var events := EventsOf(map[], talk);
    EventsOfLines(map[], talk);
    if talk != [] {
      forall i | 0 <= i < |events| ensures KeyOf(ClaudeCode.StartOf(talk[0])) != KeyOf(events[i]) {
        OfALineIsUnmarked(events[i], talk, talk[0].BaseId(), "#start");
      }
    }
  }

  /** A chunk brings what its lines' events bring. */
  lemma ChunkBrings(talk: seq<Line>, announce: bool, today: string, date: string, key: EventKey)
    ensures BringEntry(ChunkOut(talk, announce), today, date, key)
            <==> BringEntry(EventsOf(map[], talk), today, date, key)
  {
    if talk != [] {
      var head, events := Announced(talk, announce), EventsOf(map[], talk);
      StartIsApart(talk, announce);
      BringBehind(head, events, today, date, key);
      BringBefore(head + events, CheckpointOf(talk[|talk| - 1].Session()), today, date, key);
    }
  }

  // ---- all chunks --------------------------------------------------------------------------------------------

  lemma LabelsDoNotMatter(a: seq<Envelope>, b: seq<Envelope>, today: string, date: string, key: EventKey)
    requires SameButLabels(a, b) && forall i :: 0 <= i < |b| ==> b[i].eventId.Some?
    ensures BringEntry(a, today, date, key) <==> BringEntry(b, today, date, key)
  {
    forall i | 0 <= i < |a|
      ensures SessionOf(a[i]) == SessionOf(b[i]) && KeyOf(a[i]) == KeyOf(b[i])
      ensures Replay.CarriedBy(a[i], today, date, key) <==> Replay.CarriedBy(b[i], today, date, key)
    {
      assert Unlabelled(a[i]) == Unlabelled(b[i]);
    }
    forall i: nat | i < |a| ensures BringsAt(a, i, today, date, key) <==> BringsAt(b, i, today, date, key) {}
  }

  ghost predicate SomeBring(parts: seq<seq<Envelope>>, today: string, date: string, key: EventKey) {
    exists k :: 0 <= k < |parts| && BringEntry(parts[k], today, date, key)
  }

  /** What is first in the whole is first in its part. */
  lemma {:induction false} WholeBringsNoMore(parts: seq<seq<Envelope>>, today: string, date: string, key: EventKey)
    requires BringEntry(Flat(parts), today, date, key)
    ensures SomeBring(parts, today, date, key)
  {
    var before, last := parts[..|parts| - 1], parts[|parts| - 1];
    var head := Flat(before);
    var i: nat :| BringsAt(head + last, i, today, date, key);
    if i < |head| {
      BringsAtBefore(head, last, i, today, date, key);
      WholeBringsNoMore(before, today, date, key);
      var k :| 0 <= k < |before| && BringEntry(before[k], today, date, key);
      assert parts[k] == before[k];
    } else {
      LaterIsFirst(head, last, i - |head|);
      assert BringsAt(last, i - |head|, today, date, key);
    }
  }

  lemma LaterIsFirst(head: seq<Envelope>, envs: seq<Envelope>, i: nat)
    requires i < |envs| && FirstOf(head + envs, |head| + i)
    ensures FirstOf(envs, i) && envs[i] == (head + envs)[|head| + i]
  {
    forall j | 0 <= j < i ensures SessionOf(envs[j]) != SessionOf(envs[i]) || KeyOf(envs[j]) != KeyOf(envs[i]) {
      assert (head + envs)[|head| + j] == envs[j];
    }
  }

  /** No chunk files what the whole leaves out: what is first in its chunk with its id, and content, is under the same
      id and date what some session has first in the whole. */
  ghost predicate NothingShadowed(chunks: seq<seq<Line>>, today: string) {
    forall k, i :: 0 <= k < |chunks| && 0 <= i < |EventsOf(map[], chunks[k])| ==>
      var env := EventsOf(map[], chunks[k])[i];
      FirstOf(EventsOf(map[], chunks[k]), i) && env.event.IsContent() ==>
        BringEntry(EventsOf(map[], Flat(chunks)), today, DateOf(env, today), KeyOf(env))
  }

  lemma WholeBringsWhatPiecesBring(chunks: seq<seq<Line>>, today: string, date: string, key: EventKey)
    ensures BringEntry(EventsOf(map[], Flat(chunks)), today, date, key) ==> SomeBring(Pieces(chunks), today, date, key)
  {
    ChunksMatchTheWhole(chunks);
    EventsHaveIds(map[], Flat(chunks));
    LabelsDoNotMatter(Flat(Pieces(chunks)), EventsOf(map[], Flat(chunks)), today, date, key);
    if BringEntry(EventsOf(map[], Flat(chunks)), today, date, key) {
      WholeBringsNoMore(Pieces(chunks), today, date, key);
    }
  }

  // ---- main results ------------------------------------------------------------------------------------------

  /** The polls of a file that has grown to this, and one read of the whole, on any days. */
  predicate PollsAndWhole(parse: Parser, looks: seq<Look>, file: seq<Byte>, streams: seq<seq<Item>>, whole: seq<Item>,
                          today: string) {
    && Growing(looks, file) && looks != [] && looks[|looks| - 1] == Look(file, true)
    && |streams| == |Outs(parse, looks)|
    && (forall k :: 0 <= k < |streams| ==> Replay.Delivers(streams[k], Outs(parse, looks)[k], today))
    && Replay.Delivers(whole, PollOut(parse, file, 0), today)
  }

  function TalksOf(parse: Parser, looks: seq<Look>): seq<seq<Line>> {
    Talks(parse, TakenTexts(looks))
  }

  lemma PollEntry(parse: Parser, looks: seq<Look>, file: seq<Byte>, streams: seq<seq<Item>>, whole: seq<Item>,
                  today: string, k: nat, date: string, key: EventKey)
    requires PollsAndWhole(parse, looks, file, streams, whole, today) && k < |streams|
    ensures k < |TalksOf(parse, looks)|
    ensures Replay.Brings(streams[k], date, key)
            <==> BringEntry(EventsOf(map[], TalksOf(parse, looks)[k]), today, date, key)
  {
    var texts := TakenTexts(looks);
    NoOuts(parse, looks);
    OutsOfTexts(parse, looks, file, k);
    TalksAt(parse, texts, k);
    var talk, announce := Conversation(parse, texts[k]), Flat(texts[..k]) == [];
    DeliveredBring(streams[k], ChunkOut(talk, announce), today, date, key);
    ChunkBrings(talk, announce, today, date, key);
  }

  lemma WholeEntry(parse: Parser, looks: seq<Look>, file: seq<Byte>, streams: seq<seq<Item>>, whole: seq<Item>,
                   today: string, date: string, key: EventKey)
    requires PollsAndWhole(parse, looks, file, streams, whole, today)
    ensures Replay.Brings(whole, date, key)
            <==> BringEntry(EventsOf(map[], Flat(TalksOf(parse, looks))), today, date, key)
  {
    var talk := Conversation(parse, file[..Complete(file)]);
    assert file[0..] == file;
    EveryLineOnce(parse, looks, file);
    DeliveredBring(whole, ChunkOut(talk, true), today, date, key);
    ChunkBrings(talk, true, today, date, key);
  }

  lemma PollEntries(parse: Parser, looks: seq<Look>, file: seq<Byte>, streams: seq<seq<Item>>, whole: seq<Item>,
                    today: string, date: string, key: EventKey)
    requires PollsAndWhole(parse, looks, file, streams, whole, today)
    ensures Replay.SomeBrings(streams, date, key) <==> SomeBring(Pieces(TalksOf(parse, looks)), today, date, key)
  {
    var pieces := Pieces(TalksOf(parse, looks));
    NoOuts(parse, looks);
    forall k | 0 <= k < |streams| ensures Replay.Brings(streams[k], date, key) <==>
        BringEntry(pieces[k], today, date, key) {
      PollEntry(parse, looks, file, streams, whole, today, k, date, key);
      PiecesAt(TalksOf(parse, looks), k);
    }
    AllAlike(streams, pieces, today, date, key);
  }

  lemma AllAlike(streams: seq<seq<Item>>, pieces: seq<seq<Envelope>>, today: string, date: string, key: EventKey)
    requires |streams| == |pieces|
    requires forall k :: 0 <= k < |streams| ==>
               (Replay.Brings(streams[k], date, key) <==> BringEntry(pieces[k], today, date, key))
    ensures Replay.SomeBrings(streams, date, key) <==> SomeBring(pieces, today, date, key)
  {
  }

  /** Captured poll by poll or read in one go, over a store that knew no such entry: what one read files the polls file,
      and what the polls file it files, too, unless it is shadowed. */
  lemma EntriesFiled(parse: Parser, looks: seq<Look>, file: seq<Byte>, s: Tier, streams: seq<seq<Item>>,
                     whole: seq<Item>,
                     today: string, date: string, key: EventKey)
    requires PollsAndWhole(parse, looks, file, streams, whole, today)
    requires Replay.CleanPasses(s, streams) && Replay.Clean(s, whole) && !DayContains(s, date, key)
    ensures DayContains(Replay.Passes(s, streams), date, key)
            <==> SomeBring(Pieces(TalksOf(parse, looks)), today, date, key)
    ensures DayContains(IngestAll(s, whole).store, date, key)
            <==> BringEntry(EventsOf(map[], Flat(TalksOf(parse, looks))), today, date, key)
    ensures DayContains(IngestAll(s, whole).store, date, key) ==> DayContains(Replay.Passes(s, streams), date, key)
  {
    PollEntries(parse, looks, file, streams, whole, today, date, key);
    WholeEntry(parse, looks, file, streams, whole, today, date, key);
    Replay.PassesFile(s, streams, date, key);
    Replay.IngestFiles(s, whole, date, key);
    WholeBringsWhatPiecesBring(TalksOf(parse, looks), today, date, key);
  }

  /** The two leave the same new entries. */
  ghost predicate SameNewEntries(s: Tier, a: Tier, b: Tier) {
    forall date, key :: !DayContains(s, date, key) ==> (DayContains(a, date, key) <==> DayContains(b, date, key))
  }

  /** Over a store that knows none of the file's entries, capturing a session poll by poll files what one read of the
      file files exactly when no poll's first event with an id is content that the file has behind another first event
      with that id, which is no content or has another date.  So always when no two lines share an id. */
  lemma CaptureFilesTheWholeExactlyWhen(parse: Parser, looks: seq<Look>, file: seq<Byte>, s: Tier,
                                        streams: seq<seq<Item>>, whole: seq<Item>, today: string)
    requires PollsAndWhole(parse, looks, file, streams, whole, today)
    requires Replay.CleanPasses(s, streams) && Replay.Clean(s, whole)
    requires forall date, key :: SomeBring(Pieces(TalksOf(parse, looks)), today, date, key) ==>
             !DayContains(s, date, key)
    ensures SameNewEntries(s, Replay.Passes(s, streams), IngestAll(s, whole).store)
            <==> NothingShadowed(TalksOf(parse, looks), today)
  {
    var talks := TalksOf(parse, looks);
    var polls, once := Replay.Passes(s, streams), IngestAll(s, whole).store;
    if NothingShadowed(talks, today) {
      UnshadowedAlike(parse, looks, file, s, streams, whole, today);
    } else {
      var date, key := SomethingShadowed(talks, today);
      EntriesFiled(parse, looks, file, s, streams, whole, today, date, key);
      assert DayContains(polls, date, key) && !DayContains(once, date, key);
    }
  }

  lemma UnshadowedAlike(parse: Parser, looks: seq<Look>, file: seq<Byte>, s: Tier, streams: seq<seq<Item>>,
                        whole: seq<Item>, today: string)
    requires PollsAndWhole(parse, looks, file, streams, whole, today) && NothingShadowed(TalksOf(parse, looks), today)
    requires Replay.CleanPasses(s, streams) && Replay.Clean(s, whole)
    ensures SameNewEntries(s, Replay.Passes(s, streams), IngestAll(s, whole).store)
  {
    var polls, once := Replay.Passes(s, streams), IngestAll(s, whole).store;
    forall date, key | !DayContains(s, date, key)
      ensures DayContains(polls, date, key) <==> DayContains(once, date, key)
    {
      EntriesFiled(parse, looks, file, s, streams, whole, today, date, key);
      UnshadowedBring(TalksOf(parse, looks), today, date, key);
    }
  }

  lemma UnshadowedBring(chunks: seq<seq<Line>>, today: string, date: string, key: EventKey)
    requires NothingShadowed(chunks, today)
    ensures SomeBring(Pieces(chunks), today, date, key) ==> BringEntry(EventsOf(map[], Flat(chunks)), today, date, key)
  {
    if k :| 0 <= k < |Pieces(chunks)| && BringEntry(Pieces(chunks)[k], today, date, key) {
      PiecesAt(chunks, k);
      var i: nat :| BringsAt(Pieces(chunks)[k], i, today, date, key);
    }
  }

  lemma SomethingShadowed(chunks: seq<seq<Line>>, today: string) returns (date: string, key: EventKey)
    requires !NothingShadowed(chunks, today)
    ensures SomeBring(Pieces(chunks), today, date, key)
    ensures !BringEntry(EventsOf(map[], Flat(chunks)), today, date, key)
  {
    var k, i :| 0 <= k < |chunks| && 0 <= i < |EventsOf(map[], chunks[k])|
      && FirstOf(EventsOf(map[], chunks[k]), i) && EventsOf(map[], chunks[k])[i].event.IsContent()
      && !BringEntry(EventsOf(map[], Flat(chunks)), today, DateOf(EventsOf(map[], chunks[k])[i], today),
                     KeyOf(EventsOf(map[], chunks[k])[i]));
    PiecesAt(chunks, k);
    var env := EventsOf(map[], chunks[k])[i];
    date, key := DateOf(env, today), KeyOf(env);
    assert BringsAt(Pieces(chunks)[k], i, today, date, key);
  }
}
