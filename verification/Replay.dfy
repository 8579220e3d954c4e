/** What a run leaves in the day index, and what follows for ingesting the same or a longer transcript again. */
module Replay {
  import opened Basics
  import opened Events
  import opened Store
  import opened CalendarTier
  import opened Ingest

  // ---- one envelope --------------------------------------------------------------------------

  /** The day index changes in one way only: the envelope's own key is filed under its own date. */
  lemma StepFiles(w: World, it: Item, d: string, k: EventKey)
    ensures var o := Effect(w, it); var st := StateOf(w, it.Session());
            && o.state.seen == st.seen + {it.Key()}
            && (DayContains(w.store, d, k) ==> DayContains(Step(w, it).store, d, k))
            && (DayContains(Step(w, it).store, d, k) && !DayContains(w.store, d, k) ==>
                  d == it.Date() && k == it.Key() && it.env.event.IsContent() && !Repeated(st, it))
            && (o.failure.None? && it.env.event.IsContent() && !Repeated(st, it) ==>
                  DayContains(Step(w, it).store, it.Date(), it.Key()))
  {
    var known, st := Known(w.store, it), StateOf(w, it.Session());
    HandleWrites(known, st, it);
    ApplyFiles(w.store, Effect(w, it).writes, d, k);
    ApplyFiles(w.store, Effect(w, it).writes, it.Date(), it.Key());
  }

  /** Nothing new: the session has no head, and the envelope is no content, a repeat, or already filed. */
  lemma NothingNewStep(known: bool, st: SessionState, it: Item)
    requires st.head.None?
    requires it.env.event.IsContent() ==> Repeated(st, it) || known
    ensures var o := Handle(known, st, it);
            && o.writes == [] && o.state.head.None?
            && o.records == [] && o.nodes == o.checkpoints == o.bound == 0 && o.blobs == []
  {
  }

  // ---- runs ----------------------------------------------------------------------------------

  /** The keys a session has met. */
  function KeysMet(items: seq<Item>, sid: SessionKey): set<EventKey> {
    set i | 0 <= i < |items| && items[i].Session() == sid :: items[i].Key()
  }

  /** Item `i` is the first of its session with its key. */
  predicate First(items: seq<Item>, i: nat)
    requires i < |items|
  {
    items[i].Key() !in KeysMet(items[..i], items[i].Session())
  }

  /** `(date, key)` belongs to a content event that is the first of its session with that key. */
  predicate Brings(items: seq<Item>, date: string, key: EventKey) {
    exists i :: 0 <= i < |items| && First(items, i) && items[i].env.event.IsContent()
      && items[i].Date() == date && items[i].Key() == key
  }

  lemma KeysMetSnoc(items: seq<Item>, it: Item, sid: SessionKey)
    ensures KeysMet(items + [it], sid) == KeysMet(items, sid) + (if it.Session() == sid then {it.Key()} else {})
  {
    var more := items + [it];
    assert forall i :: 0 <= i < |items| ==> more[i] == items[i];
    if it.Session() == sid {
      assert more[|items|] == it;
    }
  }

  lemma BringsSnoc(items: seq<Item>, it: Item, date: string, key: EventKey)
    ensures Brings(items + [it], date, key) <==>
            || Brings(items, date, key)
            || (it.Key() !in KeysMet(items, it.Session()) && it.env.event.IsContent() && it.Date() == date
                && it.Key() == key)
  {
    var more := items + [it];
    assert forall i :: 0 <= i < |items| ==> more[i] == items[i] && more[..i] == items[..i];
    assert more[|items|] == it && more[..|items|] == items;
    assert forall i :: 0 <= i < |items| ==> (First(more, i) <==> First(items, i));
    assert First(more, |items|) <==> it.Key() !in KeysMet(items, it.Session());
  }

  /** A run that skipped nothing. */
  predicate Clean(s: Tier, items: seq<Item>) {
    Run(Start(s), items).report.skipped == []
  }

  lemma CleanPrefix(s: Tier, items: seq<Item>)
    requires Clean(s, items) && items != []
    ensures Clean(s, items[..|items| - 1])
    ensures Effect(Run(Start(s), items[..|items| - 1]), items[|items| - 1]).failure.None?
  {
  }

  lemma {:induction false} CleanUpTo(s: Tier, items: seq<Item>, n: nat)
    requires Clean(s, items) && n <= |items|
    ensures Clean(s, items[..n])
  {
    if n < |items| {
      CleanPrefix(s, items);
      CleanUpTo(s, items[..|items| - 1], n);
      assert items[..|items| - 1][..n] == items[..n];
    } else {
      assert items[..n] == items;
    }
  }

  /** After a run, each session has seen exactly the keys it met. */
  lemma {:induction false} RunMeets(s: Tier, items: seq<Item>, sid: SessionKey)
    ensures StateOf(Run(Start(s), items), sid).seen == KeysMet(items, sid)
  {
    if items != [] {
      var before, it := items[..|items| - 1], items[|items| - 1];
      SplitLast(items);
      RunMeets(s, before, sid);
      KeysMetSnoc(before, it, sid);
      var w := Run(Start(s), before);
      StepFiles(w, it, "", it.Key());
    }
  }

  /** No run takes anything out of the day index, and one that skipped nothing adds exactly what it brings. */
  lemma {:induction false} RunFiles(s: Tier, items: seq<Item>, d: string, k: EventKey)
    ensures var after := Run(Start(s), items).store;
            && (DayContains(s, d, k) ==> DayContains(after, d, k))
            && (Clean(s, items) ==> (DayContains(after, d, k) <==> DayContains(s, d, k) || Brings(items, d, k)))
  {
    if items != [] {
      var before, it := items[..|items| - 1], items[|items| - 1];
      SplitLast(items);
      RunFiles(s, before, d, k);
      RunMeets(s, before, it.Session());
      BringsSnoc(before, it, d, k);
      var w := Run(Start(s), before);
      StepFiles(w, it, d, k);
    }
  }

  /** Every content event of the stream is a repeat within its session or already filed. */
  predicate NothingNew(s: Tier, items: seq<Item>) {
    forall i :: 0 <= i < |items| && items[i].env.event.IsContent() ==>
      !First(items, i) || DayContains(s, items[i].Date(), items[i].Key())
  }

  predicate WroteNothing(r: Report) {
    r.recordCids == [] && r.nodesWritten == r.checkpoints == r.namesBound == 0 && r.blobsWritten == []
  }

  lemma {:induction false} NothingNewRun(s: Tier, items: seq<Item>)
    requires NothingNew(s, items)
    ensures var w := Run(Start(s), items);
            && w.store == s && WroteNothing(w.report) && forall sid :: StateOf(w, sid).head.None?
  {
    if items != [] {
      var n := |items| - 1;
      var before, it := items[..n], items[n];
      forall i | 0 <= i < n ensures before[i] == items[i] && before[..i] == items[..i] {}
      NothingNewRun(s, before);
      RunMeets(s, before, it.Session());
      var w := Run(Start(s), before);
      assert it.env.event.IsContent() ==> !First(items, n) || DayContains(s, it.Date(), it.Key());
      NothingNewStep(Known(w.store, it), StateOf(w, it.Session()), it);
      forall sid ensures StateOf(Step(w, it), sid).head.None? {
        assert StateOf(w, sid).head.None?;
      }
    }
  }

  // ---- main results --------------------------------------------------------------------------

  /** The same envelopes, content under the same dates; clock, files and refusals may all differ. */
  predicate SameEvents(items: seq<Item>, again: seq<Item>) {
    |items| == |again| &&
    forall i :: 0 <= i < |items| ==>
      again[i].env == items[i].env && (items[i].env.event.IsContent() ==> again[i].Date() == items[i].Date())
  }

  lemma SameKeys(items: seq<Item>, again: seq<Item>, i: nat)
    requires SameEvents(items, again) && i < |items|
    ensures First(items, i) <==> First(again, i)
  {
  }

  /** Replay is a no-op.  If an ingest skipped nothing, ingesting the same events again over the store it
      left, whatever is refused the second time, writes no node, blob or checkpoint and leaves the store,
      with every name and manifest, exactly as it was - before and after the roll-up, complete or not. */
  lemma ReplayIsANoOp(s: Tier, items: seq<Item>, again: seq<Item>,
                      t: Tier, months: map<string, Cid>, years: map<string, Cid>)
    requires Clean(s, items) && SameEvents(items, again)
    requires PartlyRolledUp(Run(Start(IngestAll(s, items).store), again).store, t, months, years)
    ensures var after := IngestAll(s, items).store; var w := Run(Start(after), again);
            WroteNothing(w.report) && w.store == after && t == after
  {
    var ran := Run(Start(s), items).store;
    var after := IngestAll(s, items).store;
    forall i | 0 <= i < |again| && again[i].env.event.IsContent() && First(again, i)
      ensures DayContains(after, again[i].Date(), again[i].Key())
    {
      SameKeys(items, again, i);
      assert Brings(items, items[i].Date(), items[i].Key());
      RunFiles(s, items, items[i].Date(), items[i].Key());
    }
    NothingNewRun(after, again);
    RollUpIsIdempotent(ran, t, months, years);
  }

  /** A dated event is filed under the same date whenever it is read. */
  lemma DatedEventsKeepTheirDate(it: Item, again: Item)
    requires it.env == again.env && Dated(it.env)
    ensures it.Date() == again.Date() == it.env.ts[..10]
  {
  }

  /** The first record stays: once something is filed under a date and key, no later event takes its place, whatever
      is refused and whatever later readings make of the event. */
  lemma {:induction false} TheFirstRecordStays(s: Tier, items: seq<Item>, d: string, k: EventKey)
    requires DayContains(s, d, k)
    ensures FiledRecord(Run(Start(s), items).store, d, k) == FiledRecord(s, d, k)
  {
    if items != [] {
      var before, it := items[..|items| - 1], items[|items| - 1];
      TheFirstRecordStays(s, before, d, k);
      RunFiles(s, before, d, k);
      var w := Run(Start(s), before);
      HandleWrites(Known(w.store, it), StateOf(w, it.Session()), it);
      ApplyFiles(w.store, Effect(w, it).writes, d, k);
    }
  }

  // ---- transcripts that grow -----------------------------------------------------------------

  /** One pass per stream, each over the store the pass before left. */
  ghost function Passes(s: Tier, streams: seq<seq<Item>>): Tier {
    if streams == [] then s
    else IngestAll(Passes(s, streams[..|streams| - 1]), streams[|streams| - 1]).store
  }

  ghost predicate CleanPasses(s: Tier, streams: seq<seq<Item>>) {
    forall i :: 0 <= i < |streams| ==> Clean(Passes(s, streams[..i]), streams[i])
  }

  lemma IngestFiles(s: Tier, items: seq<Item>, d: string, k: EventKey)
    requires Clean(s, items)
    ensures DayContains(IngestAll(s, items).store, d, k) <==> DayContains(s, d, k) || Brings(items, d, k)
  {
    RunFiles(s, items, d, k);
  }

  ghost predicate SomeBrings(streams: seq<seq<Item>>, d: string, k: EventKey) {
    exists i :: 0 <= i < |streams| && Brings(streams[i], d, k)
  }

  lemma SomeBringsSnoc(streams: seq<seq<Item>>, d: string, k: EventKey)
    requires streams != []
    ensures SomeBrings(streams, d, k) <==>
            SomeBrings(streams[..|streams| - 1], d, k) || Brings(streams[|streams| - 1], d, k)
  {
  }

  lemma CleanPassesPrefix(s: Tier, streams: seq<seq<Item>>)
    requires CleanPasses(s, streams) && streams != []
    ensures var before := streams[..|streams| - 1];
            CleanPasses(s, before) && Clean(Passes(s, before), streams[|streams| - 1])
  {
    var n := |streams| - 1;
    var before := streams[..n];
    assert Clean(Passes(s, streams[..n]), streams[n]);
    forall i | 0 <= i < n ensures Clean(Passes(s, before[..i]), before[i]) {
      PrefixOfPrefix(streams, n, i);
      assert Clean(Passes(s, streams[..i]), streams[i]);
    }
  }

  lemma {:induction false} PassesFile(s: Tier, streams: seq<seq<Item>>, date: string, key: EventKey)
    requires CleanPasses(s, streams)
    ensures DayContains(Passes(s, streams), date, key) <==>
            DayContains(s, date, key) || SomeBrings(streams, date, key)
  {
    if streams != [] {
      var before := streams[..|streams| - 1];
      CleanPassesPrefix(s, streams);
      PassesFile(s, before, date, key);
      IngestFiles(Passes(s, before), streams[|streams| - 1], date, key);
      SomeBringsSnoc(streams, date, key);
    }
  }

  /** A stream reads the first `n` events of a transcript, and then possibly closes with events that are no content (an
      end of session, a checkpoint). */
  predicate ReadsUpTo(stream: seq<Item>, transcript: seq<Item>, n: nat) {
    && n <= |stream| && n <= |transcript| && SameEvents(stream[..n], transcript[..n])
    && forall i :: n <= i < |stream| ==> !stream[i].env.event.IsContent()
  }

  ghost predicate Reads(stream: seq<Item>, transcript: seq<Item>) {
    exists n: nat :: ReadsUpTo(stream, transcript, n)
  }

  lemma ReadingBrings(stream: seq<Item>, transcript: seq<Item>, date: string, key: EventKey)
    requires Reads(stream, transcript) && Brings(stream, date, key)
    ensures Brings(transcript, date, key)
  {
    var n: nat :| ReadsUpTo(stream, transcript, n);
    var i :| 0 <= i < |stream| && First(stream, i) && stream[i].env.event.IsContent()
      && stream[i].Date() == date && stream[i].Key() == key;
    assert stream[..n][i] == stream[i] && transcript[..n][i] == transcript[i];
    assert stream[..n][..i] == stream[..i] && transcript[..n][..i] == transcript[..i];
    SameKeys(stream[..n], transcript[..n], i);
    assert First(transcript, i);
  }

  /** Growing transcripts converge.  However often, and in whatever order, readings of a transcript are
      ingested without a skip, if one of them brings all the transcript holds then the day index ends up
      with exactly the entries one clean ingest of the whole transcript leaves. */
  lemma GrowingTranscriptsConverge(s: Tier, streams: seq<seq<Item>>, whole: nat, transcript: seq<Item>,
                                   date: string, key: EventKey)
    requires CleanPasses(s, streams) && Clean(s, transcript)
    requires forall i :: 0 <= i < |streams| ==> Reads(streams[i], transcript)
    requires whole < |streams| && Reads(transcript, streams[whole])
    ensures DayContains(Passes(s, streams), date, key) <==> DayContains(IngestAll(s, transcript).store, date, key)
  {
    PassesFile(s, streams, date, key);
    IngestFiles(s, transcript, date, key);
    if Brings(transcript, date, key) {
      ReadingBrings(transcript, streams[whole], date, key);
    }
    forall i | 0 <= i < |streams| && Brings(streams[i], date, key) ensures Brings(transcript, date, key) {
      ReadingBrings(streams[i], transcript, date, key);
    }
  }

  /** The items bring these envelopes, each on any day; only content without a date of its own is brought on the
      day that is meant. */
  predicate Delivers(items: seq<Item>, envs: seq<Envelope>, today: string) {
    |items| == |envs| && forall i :: 0 <= i < |items| ==>
      items[i].env == envs[i] && (envs[i].event.IsContent() && !Dated(envs[i]) ==> items[i].today == today)
  }

  lemma DeliveredDates(items: seq<Item>, envs: seq<Envelope>, today: string, i: nat)
    requires Delivers(items, envs, today) && i < |items| && envs[i].event.IsContent()
    ensures items[i].Date() == DateOf(envs[i], today)
  {
    if Dated(envs[i]) {
      DatedEventsKeepTheirDate(items[i], items[i].(today := today));
    }
  }

  /** Without that the index need not converge: undated content that is read on two days is filed on both. */
  lemma UndatedContentIsFiledEachDay(s: Tier, it: Item, again: Item)
    requires again.env == it.env && it.env.event.IsContent() && !Dated(it.env)
    requires CleanPasses(s, [[it], [again]])
    ensures DayContains(Passes(s, [[it], [again]]), it.today, it.Key())
    ensures DayContains(Passes(s, [[it], [again]]), again.today, it.Key())
  {
    var streams := [[it], [again]];
    assert [it][..0] == [] && [again][..0] == [];
    assert First([it], 0) && First([again], 0);
    assert Brings(streams[0], it.today, it.Key()) && Brings(streams[1], again.today, it.Key());
    PassesFile(s, streams, it.today, it.Key());
    PassesFile(s, streams, again.today, it.Key());
  }

  /** One of the envelopes is content with this date and key. */
  predicate Carries(envs: seq<Envelope>, today: string, date: string, key: EventKey) {
    exists i :: 0 <= i < |envs| && CarriedBy(envs[i], today, date, key)
  }

  predicate CarriedBy(env: Envelope, today: string, date: string, key: EventKey) {
    env.event.IsContent() && DateOf(env, today) == date && KeyOf(env) == key
  }

  predicate DistinctKeys(envs: seq<Envelope>) {
    forall i, j :: 0 <= i < j < |envs| ==> KeyOf(envs[i]) != KeyOf(envs[j])
  }

  /** When no two events share a key, all content is brought. */
  lemma DistinctBring(items: seq<Item>, envs: seq<Envelope>, today: string, date: string, key: EventKey)
    requires Delivers(items, envs, today) && DistinctKeys(envs)
    ensures Brings(items, date, key) <==> Carries(envs, today, date, key)
  {
    forall i | 0 <= i < |items| && envs[i].event.IsContent() ensures items[i].Date() == DateOf(envs[i], today) {
      DeliveredDates(items, envs, today, i);
    }
  }

  /** A stream that starts like a longer one, and then only closes, is a reading of it. */
  lemma PrefixIsAReading(items: seq<Item>, out: seq<Envelope>, whole: seq<Item>, all: seq<Envelope>, n: nat,
                         today: string)
    requires Delivers(items, out, today) && Delivers(whole, all, today)
    requires n <= |out| && out[..n] <= all && forall i :: n <= i < |out| ==> !out[i].event.IsContent()
    ensures ReadsUpTo(items, whole, n)
  {
    forall i | 0 <= i < n
      ensures whole[i].env == items[i].env && (items[i].env.event.IsContent() ==> whole[i].Date() == items[i].Date())
    {
      assert all[i] == out[..n][i];
      if out[i].event.IsContent() {
        DeliveredDates(items, out, today, i);
        DeliveredDates(whole, all, today, i);
      }
    }
    assert SameEvents(items[..n], whole[..n]);
  }
}
