/** Which arguments a tool result of a Codex rollout is filed with, however often the rollout is ingested while it
    grows: the pairing, read off the records. */
module RolloutPairing {
  import opened Basics
  import opened Events
  import opened EventIds
  import opened Store
  import opened Ingest
  import opened Codex
  import opened Rollouts
  import opened Pairing
  import opened Filing
  import opened Rereading
  import Replay

  // ---- the reference: what waits after some records ------------------------------------------------------

  /** The tool that record `p` brings a result of, if it does. */
  function ResultOf(records: seq<Record>, p: nat): Option<string>
    requires p < |records|
  {
    var r := records[p];
    if IsOutput(r) then
      match r.payload.callId
      case Some(id) => Some(OrElse(LatestCall(records[..p], id), "tool"))
      case None => Some("tool")
    else if IsPatch(r) then Some("apply_patch")
    else None
  }

  function CallOf(r: Record): Option<string> {
    if IsCall(r) then Some(OrElse(r.payload.name, "tool")) else None
  }

  function ArgumentsOf(r: Record): string
    requires r.Record?
  {
    OrElse(if IsItem(r, FunctionCall) then r.payload.arguments else r.payload.input, "")
  }

  /** What record `p` does to the arguments that wait for the tool. */
  function WaitsAfter(q: seq<string>, records: seq<Record>, p: nat, tool: string, counts: bool): seq<string>
    requires p < |records|
  {
    var r := records[p];
    if BeginsSession(r) then []
    else if CallOf(r) == Some(tool) then q + [ArgumentsOf(r)]
    else if ResultOf(records, p) == Some(tool) && counts && q != [] then q[1..]
    else q
  }

  /** The arguments of calls of the tool that wait for their results, oldest first, if the results before record `c`
      do not count. */
  function Waits(records: seq<Record>, tool: string, c: nat): seq<string> {
    if records == [] then []
    else WaitsAfter(Waits(records[..|records| - 1], tool, c), records, |records| - 1, tool, |records| - 1 >= c)
  }

  // ---- the envelopes say the same ------------------------------------------------------------------------

  function Sid(source: string): SessionKey {
    SessionKey(HOST_ID, source)
  }

  function Queued(source: string, out: seq<Envelope>, tool: string, n: nat): seq<string> {
    Backlog([], out, Sid(source), tool, n)
  }

  /** What one event does to the queue. */
  function Moved(q: seq<string>, event: Event, tool: string, counts: bool): seq<string> {
    match event
    case SessionStarted(_) => []
    case ToolCallStarted(t, args) => if t == tool then q + [OrElse(args, "")] else q
    case ToolCallFinished(t, _, _) => if t == tool && counts && q != [] then q[1..] else q
    case _ => q
  }

  lemma EmittedOne(source: string, project: Option<string>, out: seq<Envelope>, ts: string, said: Saying,
                   tool: string, n: nat)
    ensures Queued(source, Emitted(source, project, out, ts, [said]), tool, n)
            == Moved(Queued(source, out, tool, n), said.event, tool, |out| >= n)
  {
    EmitOne(source, project, out, ts, said);
    BacklogSnoc([], out, EnvelopeAt(source, project, |out|, ts, said.reasoning, said.event), Sid(source), tool, n);
  }

  lemma EmittedNone(source: string, project: Option<string>, out: seq<Envelope>, ts: string)
    ensures Emitted(source, project, out, ts, []) == out
  {
  }

  lemma {:induction false} FilesMoveNothing(source: string, project: Option<string>, out: seq<Envelope>, ts: string,
                                            paths: seq<string>, tool: string, n: nat)
    ensures Queued(source, Emitted(source, project, out, ts, Written(paths)), tool, n) == Queued(source, out, tool, n)
  {
    if paths == [] {
      EmittedNone(source, project, out, ts);
    } else {
      var before, last := paths[..|paths| - 1], Saying(None, FileWritten(paths[|paths| - 1]));
      FilesMoveNothing(source, project, out, ts, before, tool, n);
      EmitLast(source, project, out, ts, Written(before), last);
      EmittedOne(source, project, Emitted(source, project, out, ts, Written(before)), ts, last, tool, n);
    }
  }

  lemma PatchMovesOnce(source: string, project: Option<string>, out: seq<Envelope>, ts: string, p: Payload,
                       tool: string, n: nat)
    ensures Queued(source, Emitted(source, project, out, ts, Patched(p)), tool, n)
            == Moved(Queued(source, out, tool, n), Patched(p)[|p.changed|].event, tool, |out| + |p.changed| >= n)
  {
    var files := Emitted(source, project, out, ts, Written(p.changed));
    FilesMoveNothing(source, project, out, ts, p.changed, tool, n);
    EmitLast(source, project, out, ts, Written(p.changed), Patched(p)[|p.changed|]);
    EmittedOne(source, project, files, ts, Patched(p)[|p.changed|], tool, n);
  }

  lemma PatchSaysOneResult(q: seq<string>, all: seq<Record>, tool: string, counts: bool)
    requires all != [] && IsPatch(all[|all| - 1])
    ensures var p := all[|all| - 1].payload;
            Moved(q, Patched(p)[|p.changed|].event, tool, counts) == WaitsAfter(q, all, |all| - 1, tool, counts)
  {
  }

  lemma SilentRecordsMoveNothing(q: seq<string>, all: seq<Record>, m: Memory, tool: string, counts: bool)
    requires all != [] && !IsPatch(all[|all| - 1]) && Said(m, all[|all| - 1]) == []
    ensures WaitsAfter(q, all, |all| - 1, tool, counts) == q
  {
  }

  lemma OneSaying(m: Memory, r: Record)
    requires !IsPatch(r) && Said(m, r) != []
    ensures Said(m, r) == [Said(m, r)[0]]
  {
  }

  lemma OutputIsItsResult(all: seq<Record>, m: Memory)
    requires all != [] && IsOutput(all[|all| - 1]) && m == MemoryAfter(all[..|all| - 1])
    ensures ResultOf(all, |all| - 1) == Some(ToolNamed(m.names, all[|all| - 1].payload.callId))
  {
    var r := all[|all| - 1];
    if r.payload.callId.Some? {
      NamesAreLatest(all[..|all| - 1], r.payload.callId.value);
    }
  }

  lemma SayingMoves(q: seq<string>, all: seq<Record>, m: Memory, tool: string, counts: bool)
    requires all != [] && !IsPatch(all[|all| - 1]) && m == MemoryAfter(all[..|all| - 1])
             && Said(m, all[|all| - 1]) != []
    ensures Moved(q, Said(m, all[|all| - 1])[0].event, tool, counts) == WaitsAfter(q, all, |all| - 1, tool, counts)
  {
    if IsOutput(all[|all| - 1]) {
      OutputIsItsResult(all, m);
    }
  }

  /** What a record does to the queue. */
  lemma RecordMoves(source: string, all: seq<Record>, m: Memory, project: Option<string>, out: seq<Envelope>,
                    tool: string,
                    n: nat, counts: bool)
    requires all != [] && m == MemoryAfter(all[..|all| - 1])
    requires if counts then |out| >= n else |out| + |Said(m, all[|all| - 1])| <= n
    ensures var r := all[|all| - 1];
            Queued(source, Emitted(source, project, out, r.Ts(), Said(m, r)), tool, n)
            == WaitsAfter(Queued(source, out, tool, n), all, |all| - 1, tool, counts)
  {
    var r, q := all[|all| - 1], Queued(source, out, tool, n);
    if IsPatch(r) {
      PatchMovesOnce(source, project, out, r.Ts(), r.payload, tool, n);
      PatchSaysOneResult(q, all, tool, counts);
    } else if Said(m, r) == [] {
      EmittedNone(source, project, out, r.Ts());
      SilentRecordsMoveNothing(q, all, m, tool, counts);
    } else {
      OneSaying(m, r);
      EmittedOne(source, project, out, r.Ts(), Said(m, r)[0], tool, n);
      SayingMoves(q, all, m, tool, counts);
    }
  }

  lemma BodyLengths(source: string, records: seq<Record>, m: nat, n: nat)
    requires m <= n <= |records|
    ensures |Body(source, records[..m])| <= |Body(source, records[..n])|
  {
    BodyGrows(source, records[..n], m);
    PrefixOfPrefix(records, n, m);
  }

  ghost predicate SayTheSame(source: string, records: seq<Record>, m: nat, c: nat, tool: string)
    requires m <= |records| && c <= |records|
  {
    Queued(source, Body(source, records[..m]), tool, |Body(source, records[..c])|) == Waits(records[..m], tool, c)
  }

  /** The queue the envelopes stand for is what waits in the records. */
  lemma {:induction false} QueuedIsWaits(source: string, records: seq<Record>, m: nat, c: nat, tool: string)
    requires m <= |records| && c <= |records|
    ensures SayTheSame(source, records, m, c, tool)
  {
    if m == 0 {
      assert records[..0] == [];
    } else {
      QueuedIsWaits(source, records, m - 1, c, tool);
      NextSaysTheSame(source, records, m - 1, c, tool);
    }
  }

  lemma NextSaysTheSame(source: string, records: seq<Record>, p: nat, c: nat, tool: string)
    requires p < |records| && c <= |records| && SayTheSame(source, records, p, c, tool)
    ensures SayTheSame(source, records, p + 1, c, tool)
  {
    NextMoves(source, records, p, c, tool);
    NextWaits(records, p, c, tool);
  }

  lemma NextWaits(records: seq<Record>, p: nat, c: nat, tool: string)
    requires p < |records|
    ensures Waits(records[..p + 1], tool, c)
            == WaitsAfter(Waits(records[..p], tool, c), records[..p + 1], p, tool, p >= c)
  {
    PrefixOfPrefix(records, p + 1, p);
  }

  lemma NextMoves(source: string, records: seq<Record>, p: nat, c: nat, tool: string)
    requires p < |records| && c <= |records|
    ensures Queued(source, Body(source, records[..p + 1]), tool, |Body(source, records[..c])|)
            == WaitsAfter(Queued(source, Body(source, records[..p]), tool, |Body(source, records[..c])|),
                          records[..p + 1], p, tool, p >= c)
  {
    var all := records[..p + 1];
    PrefixOfPrefix(records, p + 1, p);
    OneMore(source, records, p);
    if p >= c {
      BodyLengths(source, records, c, p);
    } else {
      BodyLengths(source, records, p + 1, c);
    }
    RecordMoves(source, all, MemoryAfter(all[..p]), MemoryAfter(all).project, Body(source, all[..p]), tool,
                |Body(source, records[..c])|, p >= c);
  }

  // ---- where a result stands -----------------------------------------------------------------------------

  /** The position of the result that record `p` brings. */
  function Position(source: string, records: seq<Record>, p: nat): int
    requires p < |records|
  {
    |Body(source, records[..p + 1])| - 1
  }

  lemma LastEmitted(source: string, project: Option<string>, out: seq<Envelope>, ts: string, said: seq<Saying>,
                    last: Saying)
    ensures var all := Emitted(source, project, out, ts, said + [last]);
            all == Emitted(source, project, out, ts, said)
                   + [EnvelopeAt(source, project, |out| + |said|, ts, last.reasoning, last.event)]
  {
    EmitLast(source, project, out, ts, said, last);
    EmitOne(source, project, Emitted(source, project, out, ts, said), ts, last);
  }

  lemma PatchEmitsItsResultLast(source: string, r: Record, project: Option<string>, out: seq<Envelope>, n: nat)
    returns (before: seq<Envelope>, env: Envelope)
    requires IsPatch(r)
    ensures Emitted(source, project, out, r.Ts(), Patched(r.payload)) == before + [env]
    ensures out <= before && Finishes(env, Sid(source), "apply_patch")
    ensures Queued(source, before, "apply_patch", n) == Queued(source, out, "apply_patch", n)
  {
    var last := Patched(r.payload)[|r.payload.changed|];
    before := Emitted(source, project, out, r.Ts(), Written(r.payload.changed));
    env := EnvelopeAt(source, project, |before|, r.Ts(), last.reasoning, last.event);
    LastEmitted(source, project, out, r.Ts(), Written(r.payload.changed), last);
    FilesMoveNothing(source, project, out, r.Ts(), r.payload.changed, "apply_patch", n);
  }

  lemma OutputEmitsOnlyItsResult(source: string, r: Record, m: Memory, project: Option<string>, out: seq<Envelope>)
    returns (env: Envelope)
    requires IsOutput(r)
    ensures Emitted(source, project, out, r.Ts(), Said(m, r)) == out + [env]
    ensures Finishes(env, Sid(source), ToolNamed(m.names, r.payload.callId))
  {
    OneSaying(m, r);
    env := EnvelopeAt(source, project, |out|, r.Ts(), None, Said(m, r)[0].event);
    EmitOne(source, project, out, r.Ts(), Said(m, r)[0]);
  }

  lemma PatchSays(m: Memory, r: Record)
    requires IsPatch(r)
    ensures Said(m, r) == Patched(r.payload)
  {
  }

  /** A result is the last event its record emits, and nothing its record emits before it moves its queue. */
  lemma ResultIsEmittedLast(source: string, all: seq<Record>, m: Memory, project: Option<string>, out: seq<Envelope>,
                            tool: string, n: nat)
    returns (before: seq<Envelope>, env: Envelope)
    requires all != [] && m == MemoryAfter(all[..|all| - 1]) && ResultOf(all, |all| - 1) == Some(tool)
    ensures Emitted(source, project, out, all[|all| - 1].Ts(), Said(m, all[|all| - 1])) == before + [env]
    ensures out <= before && Finishes(env, Sid(source), tool)
    ensures Queued(source, before, tool, n) == Queued(source, out, tool, n)
  {
    var r := all[|all| - 1];
    if IsOutput(r) {
      OutputIsItsResult(all, m);
      before := out;
      env := OutputEmitsOnlyItsResult(source, r, m, project, out);
    } else {
      PatchSays(m, r);
      before, env := PatchEmitsItsResultLast(source, r, project, out, n);
    }
  }

  /** What waits where a result stands is what waits in the records before it. */
  lemma WaitsAtResult(source: string, records: seq<Record>, p: nat, c: nat, tool: string)
    requires p < |records| && c <= |records| && ResultOf(records, p) == Some(tool)
    ensures var i, out := Position(source, records, p), Translation(source, records);
            && |Body(source, records[..p])| <= i < |out|
            && Finishes(out[i], Sid(source), tool)
            && Queued(source, out[..i], tool, |Body(source, records[..c])|) == Waits(records[..p], tool, c)
  {
    var before, env := ResultInTranslation(source, records, p, tool, |Body(source, records[..c])|);
    QueuedIsWaits(source, records, p, c, tool);
    NextOfPrefix(before, env, Translation(source, records));
  }

  lemma ResultInTranslation(source: string, records: seq<Record>, p: nat, tool: string, n: nat)
    returns (before: seq<Envelope>, env: Envelope)
    requires p < |records| && ResultOf(records, p) == Some(tool)
    ensures before + [env] <= Translation(source, records) && |before| == Position(source, records, p)
    ensures |Body(source, records[..p])| <= |before| && Finishes(env, Sid(source), tool)
    ensures Queued(source, before, tool, n) == Queued(source, Body(source, records[..p]), tool, n)
  {
    before, env := ResultInBody(source, records, p, tool, n);
    InTranslation(source, records, p + 1);
  }

  lemma InTranslation(source: string, records: seq<Record>, n: nat)
    requires n <= |records|
    ensures Body(source, records[..n]) <= Translation(source, records)
  {
    BodyGrows(source, records, n);
  }

  lemma ResultInBody(source: string, records: seq<Record>, p: nat, tool: string, n: nat)
    returns (before: seq<Envelope>, env: Envelope)
    requires p < |records| && ResultOf(records, p) == Some(tool)
    ensures Body(source, records[..p + 1]) == before + [env]
    ensures Body(source, records[..p]) <= before && Finishes(env, Sid(source), tool)
    ensures Queued(source, before, tool, n) == Queued(source, Body(source, records[..p]), tool, n)
  {
    var all := records[..p + 1];
    PrefixOfPrefix(records, p + 1, p);
    OneMore(source, records, p);
    before, env := ResultIsEmittedLast(source, all, MemoryAfter(records[..p]), MemoryAfter(all).project,
                                       Body(source, records[..p]), tool, n);
  }

  // ---- main results --------------------------------------------------------------------------------------

  /** Passes over a growing rollout, each over all there is of it. */
  predicate GrowingPasses(passes: seq<seq<Item>>, source: string, records: seq<Record>, cuts: seq<nat>, today: string) {
    && |cuts| == |passes|
    && (forall k :: 0 <= k < |cuts| ==> cuts[k] <= |records| && PassOver(passes[k], source, records[..cuts[k]], today))
    && forall j, k :: 0 <= j < k < |cuts| ==> cuts[j] <= cuts[k]
  }

  /** How many events each pass has of the rollout. */
  function EventCuts(source: string, records: seq<Record>, cuts: seq<nat>): (r: seq<nat>)
    requires forall k :: 0 <= k < |cuts| ==> cuts[k] <= |records|
    ensures |r| == |cuts| && forall k :: 0 <= k < |r| ==> r[k] == |Body(source, records[..cuts[k]])|
  {
    seq(|cuts|, k requires 0 <= k < |cuts| => |Body(source, records[..cuts[k]])|)
  }

  lemma PassesAreReadings(passes: seq<seq<Item>>, source: string, records: seq<Record>, cuts: seq<nat>, today: string,
                          whole: seq<Item>)
    requires GrowingPasses(passes, source, records, cuts, today) && PassOver(whole, source, records, today)
    ensures AreReadings(passes, whole, EventCuts(source, records, cuts))
  {
    forall k | 0 <= k < |cuts| ensures Replay.ReadsUpTo(passes[k], whole, |Body(source, records[..cuts[k]])|) {
      PrefixReads(passes[k], whole, source, records, cuts[k], today);
    }
    forall j, k | 0 <= j < k < |cuts|
      ensures |Body(source, records[..cuts[j]])| <= |Body(source, records[..cuts[k]])|
    {
      BodyLengths(source, records, cuts[j], cuts[k]);
    }
  }

  lemma WholeIsDistinct(source: string, records: seq<Record>, whole: seq<Item>, today: string)
    requires PassOver(whole, source, records, today)
    ensures DistinctKeys(whole)
  {
    TranslationsAreSessions(source, records);
    var out := Translation(source, records);
    forall i, j | 0 <= i < j < |whole| ensures whole[i].Key() != whole[j].Key() {
      assert out[i].eventId == Some(Numbered(source, i)) && out[j].eventId == Some(Numbered(source, j));
      IdsAreDistinct(source, i, source, j);
    }
  }

  /** Pass `k` is the first to find the result that record `p` brings. */
  lemma FoundBy(source: string, records: seq<Record>, cuts: seq<nat>, k: nat, p: nat, tool: string)
    requires (forall j :: 0 <= j < |cuts| ==> cuts[j] <= |records|) && k < |cuts| && ReadBefore(cuts, k) <= p < cuts[k]
    requires ResultOf(records, p) == Some(tool)
    ensures ReadBefore(EventCuts(source, records, cuts), k) == |Body(source, records[..ReadBefore(cuts, k)])|
    ensures ReadBefore(EventCuts(source, records, cuts), k) <= Position(source, records, p)
    ensures Position(source, records, p) < EventCuts(source, records, cuts)[k]
  {
    WaitsAtResult(source, records, p, 0, tool);
    BodyLengths(source, records, ReadBefore(cuts, k), p);
    BodyLengths(source, records, p + 1, cuts[k]);
  }

  lemma InputOfRecord(source: string, records: seq<Record>, p: nat, c: nat, tool: string, whole: seq<Item>,
                      today: string)
    requires PassOver(whole, source, records, today)
    requires p < |records| && c <= |records| && ResultOf(records, p) == Some(tool)
    ensures var i := Position(source, records, p);
            && 0 <= i < |whole| && Finishes(whole[i].env, Sid(source), tool)
            && InputIn(Envs(whole), i, |Body(source, records[..c])|) == Oldest(Waits(records[..p], tool, c))
  {
    WaitsAtResult(source, records, p, c, tool);
    assert Envs(whole) == Translation(source, records);
  }

  /** Which arguments a result is filed with.  Ingest a rollout while it grows, as often as one likes and over as many
      days: the result that record `p` brings, first found by pass `k`, is filed with the oldest arguments that wait in
      the records before it when the results before that pass do not count - and by one ingest of the whole rollout
      with the oldest that wait when all do. */
  lemma RolloutResultsAreFiled(s: Tier, source: string, records: seq<Record>, today: string, cuts: seq<nat>,
                               passes: seq<seq<Item>>, whole: seq<Item>, k: nat, p: nat, tool: string)
    requires GrowingPasses(passes, source, records, cuts, today) && PassOver(whole, source, records, today)
    requires Replay.CleanPasses(s, passes) && Replay.Clean(s, whole) && KnownUpTo(s, whole, 0)
    requires k < |cuts| && ReadBefore(cuts, k) <= p < cuts[k] && ResultOf(records, p) == Some(tool)
    ensures var i := Position(source, records, p);
            && 0 <= i < |whole| && Finishes(whole[i].env, Sid(source), tool)
            && InputAt(Replay.Passes(s, passes), whole[i])
                == Some(Oldest(Waits(records[..p], tool, ReadBefore(cuts, k))))
            && InputAt(IngestAll(s, whole).store, whole[i]) == Some(Oldest(Waits(records[..p], tool, 0)))
  {
    var i := Position(source, records, p);
    PassesAreReadings(passes, source, records, cuts, today, whole);
    WholeIsDistinct(source, records, whole, today);
    InputOfRecord(source, records, p, ReadBefore(cuts, k), tool, whole, today);
    InputOfRecord(source, records, p, 0, tool, whole, today);
    FoundBy(source, records, cuts, k, p, tool);
    ReadingsGive(s, whole, EventCuts(source, records, cuts), passes, k, i);
    OneReadingGives(s, whole, i);
  }

  /** A result of the tool before record `c` and after the session's last beginning. */
  predicate HasResultBefore(records: seq<Record>, tool: string, c: nat) {
    exists j :: 0 <= j < |records| && j < c && ResultOf(records, j) == Some(tool)
      && forall m :: j < m < |records| ==> !BeginsSession(records[m])
  }

  lemma ResultOfPrefix(records: seq<Record>, n: nat, j: nat)
    requires j < n <= |records|
    ensures ResultOf(records[..n], j) == ResultOf(records, j)
  {
    PrefixOfPrefix(records, n, j);
  }

  lemma ResultBefore(records: seq<Record>, tool: string, c: nat)
    requires records != [] && !HasResultBefore(records, tool, c) && !BeginsSession(records[|records| - 1])
    ensures !HasResultBefore(records[..|records| - 1], tool, c)
    ensures ResultOf(records, |records| - 1) == Some(tool) ==> |records| - 1 >= c
  {
    var p := |records| - 1;
    forall j | 0 <= j < p && j < c && ResultOf(records[..p], j) == Some(tool)
      ensures exists m :: j < m < p && BeginsSession(records[..p][m])
    {
      ResultOfPrefix(records, p, j);
      var m :| j < m < |records| && BeginsSession(records[m]);
      assert records[..p][m] == records[m];
    }
  }

  /** So a result has the arguments one ingest gives it whenever no result of its tool, since the session began, was
      read before the pass that found it. */
  lemma {:induction false} NothingReadBefore(records: seq<Record>, tool: string, c: nat)
    requires !HasResultBefore(records, tool, c)
    ensures Waits(records, tool, c) == Waits(records, tool, 0)
  {
    if records != [] && !BeginsSession(records[|records| - 1]) {
      ResultBefore(records, tool, c);
      NothingReadBefore(records[..|records| - 1], tool, c);
    }
  }

  /** Where the waiting arguments can be told apart, only if as many wait either way. */
  lemma DifferentArgumentsTell(source: string, records: seq<Record>, tool: string, c: nat)
    requires c <= |records| && AllDifferent(Pairing.Announced(Body(source, records), Sid(source), tool))
    ensures Oldest(Waits(records, tool, c)) == Oldest(Waits(records, tool, 0))
            <==> |Waits(records, tool, c)| == |Waits(records, tool, 0)|
  {
    assert records[..|records|] == records;
    QueuedIsWaits(source, records, |records|, c, tool);
    QueuedIsWaits(source, records, |records|, 0, tool);
    Pairing.DifferentArgumentsTell(Body(source, records), Sid(source), tool, |Body(source, records[..c])|, 0);
  }

  /** Two calls of one tool, one after the other, each with its output. */
  predicate TwoCalls(records: seq<Record>, tool: string) {
    && |records| == 4
    && CallOf(records[0]) == CallOf(records[2]) == Some(tool)
    && records[0].payload.callId.Some? && records[2].payload.callId.Some?
    && IsOutput(records[1]) && records[1].payload.callId == records[0].payload.callId
    && IsOutput(records[3]) && records[3].payload.callId == records[2].payload.callId
  }

  lemma OutputAnswersItsCall(records: seq<Record>, p: nat, tool: string)
    requires p + 1 < |records| && CallOf(records[p]) == Some(tool) && records[p].payload.callId.Some?
    requires IsOutput(records[p + 1]) && records[p + 1].payload.callId == records[p].payload.callId
    ensures ResultOf(records, p + 1) == Some(tool)
  {
    PrefixOfPrefix(records, p + 1, p);
  }

  lemma CallWaits(records: seq<Record>, m: nat, tool: string, c: nat)
    requires m < |records| && CallOf(records[m]) == Some(tool)
    ensures Waits(records[..m + 1], tool, c) == Waits(records[..m], tool, c) + [ArgumentsOf(records[m])]
  {
    PrefixOfPrefix(records, m + 1, m);
  }

  lemma ResultTakes(records: seq<Record>, m: nat, tool: string, c: nat)
    requires m < |records| && ResultOf(records, m) == Some(tool)
    ensures Waits(records[..m + 1], tool, c)
            == if m >= c && Waits(records[..m], tool, c) != [] then Waits(records[..m], tool, c)[1..]
               else Waits(records[..m], tool, c)
  {
    PrefixOfPrefix(records, m + 1, m);
    ResultOfPrefix(records, m + 1, m);
  }

  lemma TwoCallsWait(records: seq<Record>, tool: string)
    requires TwoCalls(records, tool)
    ensures ResultOf(records, 3) == Some(tool)
    ensures Waits(records[..3], tool, 0) == [ArgumentsOf(records[2])]
    ensures Waits(records[..3], tool, 2) == [ArgumentsOf(records[0]), ArgumentsOf(records[2])]
  {
    assert records[..0] == [];
    OutputAnswersItsCall(records, 0, tool);
    OutputAnswersItsCall(records, 2, tool);
    forall c | c in {0, 2}
      ensures Waits(records[..3], tool, c)
              == (if c == 0 then [] else [ArgumentsOf(records[0])]) + [ArgumentsOf(records[2])]
    {
      CallWaits(records, 0, tool, c);
      ResultTakes(records, 1, tool, c);
      CallWaits(records, 2, tool, c);
    }
    assert 0 in {0, 2} && 2 in {0, 2};
  }

  lemma TwoPasses(first: seq<Item>, whole: seq<Item>, source: string, records: seq<Record>, today: string)
    requires |records| == 4 && PassOver(first, source, records[..2], today) && PassOver(whole, source, records, today)
    ensures GrowingPasses([first, whole], source, records, [2, 4], today)
  {
    assert records[..4] == records;
  }

  /** It can fail with nothing refused: ingested after its first call and again at its end, a rollout of two calls gives
      the second result the first call's arguments; ingested once, the second call's. */
  lemma AGrownRolloutMispairs(s: Tier, source: string, records: seq<Record>, today: string, tool: string,
                              first: seq<Item>, whole: seq<Item>)
    requires TwoCalls(records, tool) && Smooth(first) && Smooth(whole) && KnownUpTo(s, whole, 0)
    requires PassOver(first, source, records[..2], today) && PassOver(whole, source, records, today)
    ensures var i := Position(source, records, 3);
            && 0 <= i < |whole|
            && InputAt(Replay.Passes(s, [first, whole]), whole[i]) == Some(ArgumentsOf(records[0]))
            && InputAt(IngestAll(s, whole).store, whole[i]) == Some(ArgumentsOf(records[2]))
  {
    var passes, cuts := [first, whole], [2, 4];
    TwoPasses(first, whole, source, records, today);
    SmoothPassesAreClean(s, passes);
    SmoothRunsAreClean(s, whole);
    TwoCallsWait(records, tool);
    RolloutResultsAreFiled(s, source, records, today, cuts, passes, whole, 1, 3, tool);
  }
}
