/** The pairing of tool results when a conversation is read chunk by chunk, each chunk without memory of those before,
    against when it is read in one go. */
module ChunkPairing {
  import opened Basics
  import opened Events
  import opened ClaudeCode
  import opened Tail
  import opened TailLabels
  import opened Pairing

  // ---- a chunk's events in the whole -----------------------------------------------------------------------

  /** The events of the chunks before chunk `k`, all read in one go. */
  function EarlierEvents(chunks: seq<seq<Line>>, k: nat): seq<Envelope>
    requires k < |chunks|
  {
    EventsOf(map[], Flat(chunks[..k]))
  }

  /** Those of chunk `k`, read after them. */
  function EventsHere(chunks: seq<seq<Line>>, k: nat): seq<Envelope>
    requires k < |chunks|
  {
    EventsOf(NamesAfter(map[], Flat(chunks[..k])), chunks[k])
  }

  /** And read on its own. */
  function EventsAlone(chunks: seq<seq<Line>>, k: nat): seq<Envelope>
    requires k < |chunks|
  {
    EventsOf(map[], chunks[k])
  }

  lemma ReadAlone(chunks: seq<seq<Line>>, k: nat)
    requires k < |chunks|
    ensures SameButLabels(EventsAlone(chunks, k), EventsHere(chunks, k))
    ensures EventsAlone(chunks, k) == EventsHere(chunks, k) <==> !SplitsACall(chunks, k)
  {
    LinesCompared(map[], NamesAfter(map[], Flat(chunks[..k])), chunks[k]);
  }

  lemma {:induction false} FlatUpTo<T>(parts: seq<seq<T>>, n: nat)
    requires n <= |parts|
    ensures Flat(parts[..n]) <= Flat(parts)
  {
    if n == |parts| {
      assert parts[..n] == parts;
    } else {
      FlatUpTo(parts[..|parts| - 1], n);
      PrefixOfPrefix(parts, |parts| - 1, n);
    }
  }

  lemma NextPart<T>(parts: seq<seq<T>>, k: nat)
    requires k < |parts|
    ensures Flat(parts[..k]) + parts[k] <= Flat(parts)
  {
    PrefixSnoc(parts, k);
    FlatSnoc(parts[..k], parts[k]);
    FlatUpTo(parts, k + 1);
  }

  lemma EventsUpTo(names: Names, head: seq<Line>, lines: seq<Line>)
    requires head <= lines
    ensures EventsOf(names, head) <= EventsOf(names, lines)
  {
    PrefixAndRest(head, lines);
    EventsAfter(names, head, lines[|head|..]);
  }

  lemma EventsOfTwo(names: Names, head: seq<Line>, lines: seq<Line>, all: seq<Line>)
    requires head + lines <= all
    ensures EventsOf(names, head) + EventsOf(NamesAfter(names, head), lines) <= EventsOf(names, all)
  {
    EventsAfter(names, head, lines);
    EventsUpTo(names, head + lines, all);
  }

  /** In the whole the chunk's events follow those of the chunks before it. */
  lemma ChunkInTheWhole(chunks: seq<seq<Line>>, k: nat)
    requires k < |chunks|
    ensures EarlierEvents(chunks, k) + EventsHere(chunks, k) <= EventsOf(map[], Flat(chunks))
  {
    NextPart(chunks, k);
    EventsOfTwo(map[], Flat(chunks[..k]), chunks[k], Flat(chunks));
  }

  lemma OneOfThree<T>(head: seq<T>, events: seq<T>, last: T, j: nat)
    requires |head| <= 1 && j < |head + events + [last]|
    ensures var e := (head + events + [last])[j];
            || (head != [] && e == head[0])
            || (|head| <= j < |head| + |events| && e == events[j - |head|])
            || e == last
  {
  }

  lemma WithoutTheStart(head: seq<Envelope>, envs: seq<Envelope>, sid: SessionKey, tool: string)
    requires head == [] || (|head| == 1 && head[0].event.SessionStarted?)
    ensures Backlog([], head + envs, sid, tool, 0) == Backlog([], envs, sid, tool, 0)
  {
    BacklogOfTwo([], head, envs, sid, tool);
    if head != [] {
      assert head[..0] == [];
    }
  }

  lemma StartOrNothing(talk: seq<Line>, announce: bool)
    ensures var head := ClaudeCode.Announced(talk, announce);
            head == [] || (|head| == 1 && head[0].event.SessionStarted?)
  {
  }

  /** Between the start and the request for a checkpoint stand the chunk's events. */
  lemma MiddleOf(head: seq<Envelope>, events: seq<Envelope>, last: Envelope, out: seq<Envelope>, e: nat)
    requires out == head + events + [last] && e < |events|
    ensures |head| + e < |out| && out[|head| + e] == events[e] && out[..|head| + e] == head + events[..e]
  {
  }

  /** The input of an event that stands `e`-th among the events of a chunk. */
  lemma InputInChunk(talk: seq<Line>, announce: bool, e: nat)
    requires talk != [] && e < |EventsOf(map[], talk)|
    ensures var i, out := |ClaudeCode.Announced(talk, announce)| + e, ChunkOut(talk, announce);
            && i < |out| && out[i] == EventsOf(map[], talk)[e]
            && InputIn(out, i, 0) == InputIn(EventsOf(map[], talk), e, 0)
  {
    var head, events, env := ClaudeCode.Announced(talk, announce), EventsOf(map[], talk), EventsOf(map[], talk)[e];
    var out := ChunkOut(talk, announce);
    MiddleOf(head, events, CheckpointOf(talk[|talk| - 1].Session()), out, e);
    StartOrNothing(talk, announce);
    if env.event.ToolCallFinished? {
      WithoutTheStart(head, events[..e], SessionOf(env), env.event.tool);
    }
  }

  lemma ContentOfThree(head: seq<Envelope>, events: seq<Envelope>, last: Envelope, out: seq<Envelope>, i: nat)
    requires |head| <= 1 && (head != [] ==> !head[0].event.IsContent()) && !last.event.IsContent()
    requires out == head + events + [last] && i < |out| && out[i].event.IsContent()
    ensures |head| <= i < |head| + |events| && out[i] == events[i - |head|]
  {
    OneOfThree(head, events, last, i);
  }

  /** A chunk is its start, if it has one, its events and the request for a checkpoint. */
  lemma ThreeParts(talk: seq<Line>, announce: bool) returns (last: Envelope)
    requires talk != []
    ensures var head := ClaudeCode.Announced(talk, announce);
            && |head| <= 1 && (head != [] ==> !head[0].event.IsContent()) && !last.event.IsContent()
            && ChunkOut(talk, announce) == head + EventsOf(map[], talk) + [last]
  {
    last := CheckpointOf(talk[|talk| - 1].Session());
  }

  /** Content of a chunk is one of its events. */
  lemma ContentOfChunk(talk: seq<Line>, announce: bool, out: seq<Envelope>, i: nat) returns (e: nat)
    requires talk != [] && out == ChunkOut(talk, announce) && i < |out| && out[i].event.IsContent()
    ensures e < |EventsOf(map[], talk)| && i == |ClaudeCode.Announced(talk, announce)| + e
    ensures out[i] == EventsOf(map[], talk)[e]
  {
    var head, events := ClaudeCode.Announced(talk, announce), EventsOf(map[], talk);
    var last := ThreeParts(talk, announce);
    assert out == head + events + [last];
    ContentOfThree(head, events, last, out, i);
    assert |head| <= i;
    e := i - |head|;
    assert out[i] == events[e];
  }

  lemma PartOfPrefix<T>(a: seq<T>, b: seq<T>, all: seq<T>, e: nat)
    requires a + b <= all && e < |b|
    ensures |a| + e < |all| && all[|a| + e] == b[e] && all[..|a| + e] == a + b[..e]
  {
    assert all[|a| + e] == (a + b)[|a| + e];
  }

  /** Event `i` of what was read is event `e` of chunk `k`, read on its own. */
  predicate StandsAlone(out: seq<Envelope>, i: nat, chunks: seq<seq<Line>>, k: nat, e: nat) {
    && i < |out| && k < |chunks| && e < |EventsAlone(chunks, k)| && out[i] == EventsAlone(chunks, k)[e]
    && InputIn(out, i, 0) == InputIn(EventsAlone(chunks, k), e, 0)
  }

  /** Event `at` of what was read is event `e` of chunk `k`, read after those before it. */
  predicate StandsInTheWhole(out: seq<Envelope>, at: nat, chunks: seq<seq<Line>>, k: nat, e: nat) {
    && at < |out| && k < |chunks| && e < |EventsHere(chunks, k)| && out[at] == EventsHere(chunks, k)[e]
    && (out[at].event.ToolCallFinished? ==>
          InputIn(out, at, 0) == Oldest(Backlog([], EarlierEvents(chunks, k) + EventsHere(chunks, k)[..e],
                                                SessionOf(out[at]), out[at].event.tool, 0)))
  }

  /** All content of a chunk is among the events of its lines. */
  lemma ContentStandsAlone(chunks: seq<seq<Line>>, k: nat, announce: bool, i: nat) returns (e: nat)
    requires k < |chunks| && i < |ChunkOut(chunks[k], announce)| && ChunkOut(chunks[k], announce)[i].event.IsContent()
    ensures StandsAlone(ChunkOut(chunks[k], announce), i, chunks, k, e)
  {
    e := ContentOfChunk(chunks[k], announce, ChunkOut(chunks[k], announce), i);
    InputInChunk(chunks[k], announce, e);
  }

  lemma InputAfter(all: seq<Envelope>, i: nat, before: seq<Envelope>)
    requires i < |all| && all[..i] == before && all[i].event.ToolCallFinished?
    ensures InputIn(all, i, 0) == Oldest(Backlog([], before, SessionOf(all[i]), all[i].event.tool, 0))
  {
  }

  lemma StandsAt(talk: seq<Line>, i: nat, before: seq<Envelope>, env: Envelope) returns (at: nat)
    requires i < |EventsOf(map[], talk)| && EventsOf(map[], talk)[..i] == before && EventsOf(map[], talk)[i] == env
    ensures var out := ChunkOut(talk, true);
            && at < |out| && out[at] == env
            && (env.event.ToolCallFinished? ==>
                  InputIn(out, at, 0) == Oldest(Backlog([], before, SessionOf(env), env.event.tool, 0)))
  {
    at := |ClaudeCode.Announced(talk, true)| + i;
    InputInChunk(talk, true, i);
    if env.event.ToolCallFinished? {
      InputAfter(EventsOf(map[], talk), i, before);
    }
  }

  /** And all events of its lines are in the whole, read as one chunk. */
  lemma EventsStandInTheWhole(chunks: seq<seq<Line>>, k: nat, e: nat) returns (at: nat)
    requires k < |chunks| && e < |EventsHere(chunks, k)|
    ensures StandsInTheWhole(ChunkOut(Flat(chunks), true), at, chunks, k, e)
  {
    var before, here := EarlierEvents(chunks, k), EventsHere(chunks, k);
    ChunkInTheWhole(chunks, k);
    PartOfPrefix(before, here, EventsOf(map[], Flat(chunks)), e);
    at := StandsAt(Flat(chunks), |before| + e, before + here[..e], here[e]);
  }

  // ---- main results --------------------------------------------------------------------------------------

  /** Result `e` of chunk `k` has the same label and the same arguments whether the chunk is read on its own or after
      those before it. */
  predicate PairsAlike(chunks: seq<seq<Line>>, k: nat, e: nat)
    requires k < |chunks| && e < |EventsHere(chunks, k)| && e < |EventsAlone(chunks, k)|
    requires EventsHere(chunks, k)[e].event.ToolCallFinished? && EventsAlone(chunks, k)[e].event.ToolCallFinished?
  {
    var before, here, alone := EarlierEvents(chunks, k), EventsHere(chunks, k), EventsAlone(chunks, k);
    var sid, tool := SessionOf(here[e]), here[e].event.tool;
    && alone[e].event.tool == tool
    && Oldest(Backlog([], alone[..e], sid, tool, 0)) == Oldest(Backlog([], before + here[..e], sid, tool, 0))
  }

  lemma {:induction false} NothingOpens(names: Names, lines: seq<Line>)
    ensures forall i, sid :: 0 <= i < |EventsOf(names, lines)| ==> !Opens(EventsOf(names, lines)[i], sid)
  {
    EventsAreOrdinary(names, lines);
  }

  /** What waits for the result where its chunk begins. */
  function WaitingBefore(chunks: seq<seq<Line>>, k: nat, env: Envelope): seq<string>
    requires k < |chunks| && env.event.ToolCallFinished?
  {
    Backlog([], EarlierEvents(chunks, k), SessionOf(env), env.event.tool, 0)
  }

  /** As many results of its tool have found nothing in the chunk so far as calls were waiting where it begins. */
  predicate NoneMissed(chunks: seq<seq<Line>>, k: nat, e: nat, env: Envelope)
    requires k < |chunks| && e < |EventsHere(chunks, k)| && env.event.ToolCallFinished?
  {
    |WaitingBefore(chunks, k, env)| <= Unmet(EventsHere(chunks, k)[..e], SessionOf(env), env.event.tool)
  }

  /** The arguments it may be given. */
  function MayBeGiven(chunks: seq<seq<Line>>, k: nat, e: nat, env: Envelope): seq<string>
    requires k < |chunks| && e < |EventsHere(chunks, k)| && env.event.ToolCallFinished?
  {
    WaitingBefore(chunks, k, env) + Pairing.Announced(EventsHere(chunks, k)[..e], SessionOf(env), env.event.tool)
  }

  /** A chunk that splits no call gives a result the arguments it has in the whole if as many results of its tool found
      nothing in the chunk as calls were waiting where the chunk begins - so always if none was.  Where the arguments
      can be told apart, only then. */
  lemma UnsplitChunksPairExactlyWhen(chunks: seq<seq<Line>>, k: nat, e: nat)
    requires k < |chunks| && !SplitsACall(chunks, k)
    requires e < |EventsHere(chunks, k)| && EventsHere(chunks, k)[e].event.ToolCallFinished?
    ensures e < |EventsAlone(chunks, k)| && EventsAlone(chunks, k)[e] == EventsHere(chunks, k)[e]
    ensures var env := EventsHere(chunks, k)[e];
            && (NoneMissed(chunks, k, e, env) ==> PairsAlike(chunks, k, e))
            && (AllDifferent(MayBeGiven(chunks, k, e, env)) ==>
                (PairsAlike(chunks, k, e) <==> NoneMissed(chunks, k, e, env)))
  {
    var before, here := EarlierEvents(chunks, k), EventsHere(chunks, k);
    var sid, tool := SessionOf(here[e]), here[e].event.tool;
    ReadAlone(chunks, k);
    NothingOpens(NamesAfter(map[], Flat(chunks[..k])), chunks[k]);
    BacklogOfTwo([], before, here[..e], sid, tool);
    OnItsOwn(Backlog([], before, sid, tool, 0), here[..e], sid, tool);
  }
}
