/** What holds of every Codex rollout: translations grow with the rollout, and so readings of it converge. */
module Rollouts {
  import opened Basics
  import opened Events
  import opened EventIds
  import opened Store
  import opened Ingest
  import opened Codex
  import Replay
  import Sessions

  // ---- emissions ---------------------------------------------------------------------------------------

  /** One session's envelopes, numbered from zero without a gap and carrying their own provenance. */
  predicate Emission(source: string, out: seq<Envelope>) {
    forall i :: 0 <= i < |out| ==>
      out[i] == EnvelopeAt(source, out[i].projectId, i, out[i].ts, out[i].reasoning, out[i].event)
  }

  predicate Open(out: seq<Envelope>) {
    forall i :: 0 <= i < |out| ==> !out[i].event.SessionEnded?
  }

  lemma {:induction false} WrittenAreFiles(paths: seq<string>)
    ensures forall i :: 0 <= i < |paths| ==> Written(paths)[i] == Saying(None, FileWritten(paths[i]))
  {
    if paths != [] {
      WrittenAreFiles(paths[..|paths| - 1]);
    }
  }

  /** No record says that a session ended, and only an assistant's message carries reasoning: the one that waits. */
  lemma SaidByARecord(m: Memory, r: Record)
    ensures forall i :: 0 <= i < |Said(m, r)| ==> !Said(m, r)[i].event.SessionEnded?
    ensures forall i :: 0 <= i < |Said(m, r)| && Said(m, r)[i].reasoning.Some? ==>
              IsFrom(r, Assistant) && |Said(m, r)| == 1
              && Said(m, r)[i] == Saying(m.pending, ModelResponse(r.payload.content.value))
  {
    if IsPatch(r) {
      WrittenAreFiles(r.payload.changed);
    }
  }

  /** Nothing already emitted changes, and what follows is numbered on. */
  lemma {:induction false} BodyGrows(source: string, records: seq<Record>, n: nat)
    requires n <= |records|
    ensures Body(source, records[..n]) <= Body(source, records)
  {
    if n == |records| {
      assert records[..n] == records;
    } else {
      var before := records[..|records| - 1];
      BodyGrows(source, before, n);
      assert before[..n] == records[..n];
    }
  }

  lemma {:induction false} EmittedIsAnEmission(source: string, project: Option<string>, out: seq<Envelope>, ts: string,
                                               said: seq<Saying>)
    requires Emission(source, out) && Open(out)
    requires forall i :: 0 <= i < |said| ==> !said[i].event.SessionEnded?
    ensures Emission(source, Emitted(source, project, out, ts, said))
    ensures Open(Emitted(source, project, out, ts, said))
  {
    if said != [] {
      EmittedIsAnEmission(source, project, out, ts, said[..|said| - 1]);
    }
  }

  lemma {:induction false} BodyIsAnEmission(source: string, records: seq<Record>)
    ensures Emission(source, Body(source, records)) && Open(Body(source, records))
  {
    if records != [] {
      var before, r := records[..|records| - 1], records[|records| - 1];
      BodyIsAnEmission(source, before);
      SaidByARecord(MemoryAfter(before), r);
      EmittedIsAnEmission(source, MemoryAfter(records).project, Body(source, before), r.Ts(),
                          Said(MemoryAfter(before), r));
    }
  }

  /** A translation's envelopes up to its closing event. */
  function WithoutClosing(out: seq<Envelope>): seq<Envelope> {
    if out != [] && out[|out| - 1].event.SessionEnded? then out[..|out| - 1] else out
  }

  lemma WithoutClosingIsBody(source: string, records: seq<Record>)
    ensures WithoutClosing(Translation(source, records)) == Body(source, records)
  {
    BodyIsAnEmission(source, records);
  }

  lemma {:induction false} StartedByMeta(records: seq<Record>)
    ensures MemoryAfter(records).started <==> exists i :: 0 <= i < |records| && BeginsSession(records[i])
  {
    if records != [] {
      var n := |records| - 1;
      StartedByMeta(records[..n]);
      assert forall i :: 0 <= i < n ==> records[..n][i] == records[i];
      if exists i :: 0 <= i < n && BeginsSession(records[i]) {
        var i :| 0 <= i < n && BeginsSession(records[i]);
        assert BeginsSession(records[..n][i]);
      }
    }
  }

  /** A translation is one session, numbered without gaps, that ends at its end or nowhere; it ends exactly when
      some record began it. */
  lemma TranslationsAreSessions(source: string, records: seq<Record>)
    ensures var out := Translation(source, records);
            && Emission(source, out)
            && Open(WithoutClosing(out))
            && ((out != [] && out[|out| - 1].event.SessionEnded?) <==>
                  exists i :: 0 <= i < |records| && BeginsSession(records[i]))
  {
    BodyIsAnEmission(source, records);
    StartedByMeta(records);
  }

  /** Reading on only adds: the translation of a longer rollout extends that of a shorter one, minus the end of
      session the shorter one was closed with. */
  lemma TranslationsGrow(source: string, records: seq<Record>, n: nat)
    requires n <= |records|
    ensures WithoutClosing(Translation(source, records[..n])) <= Translation(source, records)
  {
    BodyGrows(source, records, n);
    WithoutClosingIsBody(source, records[..n]);
  }

  // ---- names and reasoning -----------------------------------------------------------------------------

  /** The tool the latest call with this id named. */
  function LatestCall(records: seq<Record>, id: string): Option<string> {
    if records == [] then None
    else
      var last := records[|records| - 1];
      if IsCall(last) && last.payload.callId == Some(id) then Some(OrElse(last.payload.name, "tool"))
      else LatestCall(records[..|records| - 1], id)
  }

  lemma {:induction false} NamesAreLatest(records: seq<Record>, id: string)
    ensures Lookup(MemoryAfter(records).names, id) == LatestCall(records, id)
  {
    if records != [] {
      NamesAreLatest(records[..|records| - 1], id);
    }
  }

  lemma OutputSays(m: Memory, r: Record)
    requires IsOutput(r)
    ensures After(m, r) == m
    ensures var result := ToolCallFinished(ToolNamed(m.names, r.payload.callId), !r.payload.failed, r.payload.output);
            Said(m, r) == [Saying(None, result)]
  {
  }

  /** A tool result is labelled by the latest call before it with the same id, or "tool" if there is none. */
  lemma ResultsAreNamedByTheirCalls(source: string, records: seq<Record>, r: Record)
    requires IsOutput(r)
    ensures var out := Body(source, records + [r]);
            && |out| == |Body(source, records)| + 1
            && out[|out| - 1].event == ToolCallFinished(
                 match r.payload.callId case Some(id) => OrElse(LatestCall(records, id), "tool") case None => "tool",
                 !r.payload.failed, r.payload.output)
  {
    var more, m := records + [r], MemoryAfter(records);
    assert more[..|records|] == records && more[..|records| + 1] == more;
    OneMore(source, more, |records|);
    OutputSays(m, r);
    EmitOne(source, m.project, Body(source, records), r.Ts(), Said(m, r)[0]);
    if r.payload.callId.Some? {
      NamesAreLatest(records, r.payload.callId.value);
    }
  }

  predicate IsReasoning(r: Record) {
    IsItem(r, ReasoningItem)
  }

  /** The reasoning given since the last message of the user or the assistant, if any. */
  function Waiting(records: seq<Record>): Option<Reasoning> {
    if records == [] then None
    else
      var last := records[|records| - 1];
      if IsReasoning(last) then
        match last.payload.summary case Some(text) => Some(Reasoning(text, Thinking)) case None => None
      else if IsFrom(last, User) || IsFrom(last, Assistant) then None
      else Waiting(records[..|records| - 1])
  }

  lemma {:induction false} PendingWaits(records: seq<Record>)
    ensures MemoryAfter(records).pending == Waiting(records)
  {
    if records != [] {
      PendingWaits(records[..|records| - 1]);
    }
  }

  lemma {:induction false} EmittedAt(source: string, project: Option<string>, out: seq<Envelope>, ts: string,
                                     said: seq<Saying>, i: nat)
    requires i < |said|
    ensures Emitted(source, project, out, ts, said)[|out| + i]
            == EnvelopeAt(source, project, |out| + i, ts, said[i].reasoning, said[i].event)
  {
    if i < |said| - 1 {
      EmittedAt(source, project, out, ts, said[..|said| - 1], i);
    }
  }

  /** Reasoning goes to answers only: each carries what was reasoned since the message before it, so no reasoning
      is given to two answers and none survives a new prompt. */
  lemma {:induction false} ReasoningGoesToTheNextAnswer(source: string, records: seq<Record>, i: nat)
    returns (n: nat)
    requires i < |Body(source, records)| && Body(source, records)[i].reasoning.Some?
    ensures n < |records| && IsFrom(records[n], Assistant)
    ensures i == |Body(source, records[..n])|
    ensures Body(source, records)[i].event == ModelResponse(records[n].payload.content.value)
    ensures Body(source, records)[i].reasoning == Waiting(records[..n])
  {
    n := |records| - 1;
    var before, r := records[..n], records[n];
    var out := Body(source, before);
    if i < |out| {
      n := ReasoningGoesToTheNextAnswer(source, before, i);
      assert before[..n] == records[..n];
    } else {
      var said := Said(MemoryAfter(before), r);
      EmittedAt(source, MemoryAfter(records).project, out, r.Ts(), said, i - |out|);
      SaidByARecord(MemoryAfter(before), r);
      PendingWaits(before);
    }
  }

  // ---- ingesting rollouts ------------------------------------------------------------------------------

  /** A pass over a rollout: its translation as a stream, on any days but for undated content. */
  predicate PassOver(items: seq<Item>, source: string, records: seq<Record>, today: string) {
    Replay.Delivers(items, Translation(source, records), today)
  }

  lemma PrefixReads(items: seq<Item>, whole: seq<Item>, source: string, records: seq<Record>, n: nat, today: string)
    requires n <= |records|
    requires PassOver(items, source, records[..n], today) && PassOver(whole, source, records, today)
    ensures Replay.ReadsUpTo(items, whole, |Body(source, records[..n])|)
  {
    var out := Translation(source, records[..n]);
    TranslationsGrow(source, records, n);
    WithoutClosingIsBody(source, records[..n]);
    OnlyClosingFollows(out);
    Replay.PrefixIsAReading(items, out, whole, Translation(source, records), |WithoutClosing(out)|, today);
  }

  lemma OnlyClosingFollows(out: seq<Envelope>)
    ensures var body := WithoutClosing(out);
            |body| <= |out| && out[..|body|] == body && forall i :: |body| <= i < |out| ==> !out[i].event.IsContent()
  {
  }

  /** Growing rollouts converge.  Ingest a rollout as often as one likes while it grows, over as many days as that
      takes, each time all that there is of it; once the whole of it has been read, the day index holds exactly what
      one ingest of the whole leaves, provided no pass skipped anything. */
  lemma GrowingRolloutsConverge(s: Tier, source: string, records: seq<Record>, today: string,
                                cuts: seq<nat>, passes: seq<seq<Item>>, whole: seq<Item>, last: nat,
                                date: string, key: EventKey)
    requires |cuts| == |passes| && last < |cuts| && cuts[last] == |records|
    requires forall i :: 0 <= i < |cuts| ==>
               cuts[i] <= |records| && PassOver(passes[i], source, records[..cuts[i]], today)
    requires PassOver(whole, source, records, today)
    requires Replay.CleanPasses(s, passes) && Replay.Clean(s, whole)
    ensures DayContains(Replay.Passes(s, passes), date, key) <==> DayContains(IngestAll(s, whole).store, date, key)
  {
    assert records[..|records|] == records;
    forall i | 0 <= i < |passes| ensures Replay.Reads(passes[i], whole) {
      PrefixReads(passes[i], whole, source, records, cuts[i], today);
    }
    PrefixReads(whole, passes[last], source, records, |records|, today);
    Replay.GrowingTranscriptsConverge(s, passes, last, whole, date, key);
  }

  // ---- many sessions at once ---------------------------------------------------------------------------

  /** Every interleaving of Codex translations keeps its sessions apart. */
  lemma RolloutsAreApart(items: seq<Item>, sources: seq<string>, rollouts: seq<seq<Record>>, from: seq<nat>,
                         at: seq<nat>, sid: SessionKey)
    requires |sources| == |rollouts| && |from| == |at| == |items|
    requires forall i :: 0 <= i < |items| ==>
      from[i] < |sources| && at[i] < |Translation(sources[from[i]], rollouts[from[i]])|
      && items[i].env == Translation(sources[from[i]], rollouts[from[i]])[at[i]]
    ensures Sessions.KeysApart(items, sid)
  {
    forall i | 0 <= i < |items| ensures items[i].env.hostId == HOST_ID && Sessions.OwnNumber(items[i].env) {
      TranslationsAreSessions(sources[from[i]], rollouts[from[i]]);
      assert items[i].env.eventId == Some(Numbered(sources[from[i]], at[i]));
    }
    Sessions.NumberedSessionsAreApart(items, HOST_ID, sid);
  }
}
