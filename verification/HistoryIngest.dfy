/** What ingesting an Aider history leaves, once or again and again while it grows. */
module HistoryIngest {
  import opened Basics
  import opened Events
  import opened Store
  import opened Ingest
  import opened Text
  import opened Aider
  import opened Histories
  import opened HistoryGrowth
  import opened Filing
  import Replay
  import Sessions

  /** A pass over a history: its translation as a stream, on any days. */
  predicate PassOver(items: seq<Item>, source: string, lines: seq<string>) {
    && |items| == |Translation(source, lines)|
    && forall i :: 0 <= i < |items| ==> items[i].env == Translation(source, lines)[i]
  }

  predicate ArePasses(passes: seq<seq<Item>>, source: string, lines: seq<string>, cuts: seq<nat>) {
    |cuts| == |passes| &&
    forall j :: 0 <= j < |cuts| ==> cuts[j] <= |lines| && PassOver(passes[j], source, lines[..cuts[j]])
  }

  /** Content of the history, as it is so far, at position `i`. */
  predicate Has(source: string, lines: seq<string>, i: nat) {
    i < |Translation(source, lines)| && Translation(source, lines)[i].event.IsContent()
  }

  lemma EventsAreApart(source: string, lines: seq<string>)
    ensures Replay.DistinctKeys(Translation(source, lines))
  {
    var out := Translation(source, lines);
    HistoriesAreSessions(source, lines);
    forall i, j | 0 <= i < j < |out| ensures KeyOf(out[i]) != KeyOf(out[j]) {
      HistoryEvents(source, lines, i);
      HistoryEvents(source, lines, j);
    }
  }

  lemma PassesAreApart(items: seq<Item>, source: string, lines: seq<string>)
    requires PassOver(items, source, lines)
    ensures DistinctKeys(items)
  {
    EventsAreApart(source, lines);
  }

  /** What a pass brings: the content the history has so far, under the dates it has of its own. */
  lemma PassBrings(items: seq<Item>, source: string, lines: seq<string>, date: string, key: EventKey)
    requires PassOver(items, source, lines)
    ensures Replay.Brings(items, date, key) <==> Replay.Carries(Translation(source, lines), "", date, key)
  {
    EventsAreApart(source, lines);
    HistoriesAreDated(source, lines);
    Replay.DistinctBring(items, Translation(source, lines), "", date, key);
  }

  lemma LongerHistoriesCarry(source: string, lines: seq<string>, n: nat, i: nat)
    requires n <= |lines| && Has(source, lines[..n], i)
    ensures Has(source, lines, i)
    ensures var env, whole := Translation(source, lines[..n])[i], Translation(source, lines)[i];
            KeyOf(env) == KeyOf(whole) && DateOf(env, "") == DateOf(whole, "")
  {
    assert lines[..n] + lines[n..] == lines;
    ContentKeepsItsPlace(source, lines[..n], lines[n..], i);
    HistoryEvents(source, lines, i);
  }

  lemma ShorterPassesBringNoMore(source: string, lines: seq<string>, n: nat, items: seq<Item>, whole: seq<Item>,
                                 date: string, key: EventKey)
    requires n <= |lines| && PassOver(items, source, lines[..n]) && PassOver(whole, source, lines)
    requires Replay.Brings(items, date, key)
    ensures Replay.Brings(whole, date, key)
  {
    var out := Translation(source, lines[..n]);
    PassBrings(items, source, lines[..n], date, key);
    PassBrings(whole, source, lines, date, key);
    var i :| 0 <= i < |out| && Replay.CarriedBy(out[i], "", date, key);
    LongerHistoriesCarry(source, lines, n, i);
    assert Replay.CarriedBy(Translation(source, lines)[i], "", date, key);
  }

  // ---- main results --------------------------------------------------------------------------------------

  /** Growing histories converge.  Ingest a history as often as one likes while it grows, each time all there is of it;
      once the whole of it has been read, the day index holds exactly what one ingest of the whole leaves, provided no
      pass skipped anything. */
  lemma GrowingHistoriesConverge(s: Tier, source: string, lines: seq<string>, cuts: seq<nat>, passes: seq<seq<Item>>,
                                 whole: seq<Item>, last: nat, date: string, key: EventKey)
    requires ArePasses(passes, source, lines, cuts) && last < |cuts| && cuts[last] == |lines|
    requires PassOver(whole, source, lines)
    requires Replay.CleanPasses(s, passes) && Replay.Clean(s, whole)
    ensures DayContains(Replay.Passes(s, passes), date, key) <==> DayContains(IngestAll(s, whole).store, date, key)
  {
    Replay.PassesFile(s, passes, date, key);
    Replay.IngestFiles(s, whole, date, key);
    forall j | 0 <= j < |passes| && Replay.Brings(passes[j], date, key) ensures Replay.Brings(whole, date, key) {
      ShorterPassesBringNoMore(source, lines, cuts[j], passes[j], whole, date, key);
    }
    assert lines[..|lines|] == lines;
    PassBrings(whole, source, lines, date, key);
    PassBrings(passes[last], source, lines, date, key);
  }

  /** Pass `k` is the first to find content at position `i`. */
  predicate FirstHas(source: string, lines: seq<string>, cuts: seq<nat>, k: nat, i: nat)
    requires forall j :: 0 <= j < |cuts| ==> cuts[j] <= |lines|
  {
    k < |cuts| && Has(source, lines[..cuts[k]], i) && forall j :: 0 <= j < k ==> !Has(source, lines[..cuts[j]], i)
  }

  /** Only passes that have the event bring its key. */
  lemma OnlyItsOwnKey(items: seq<Item>, source: string, lines: seq<string>, n: nat, i: nat, date: string)
    requires n <= |lines| && PassOver(items, source, lines[..n]) && Has(source, lines, i)
    requires Replay.Brings(items, date, KeyOf(Translation(source, lines)[i]))
    ensures Has(source, lines[..n], i)
  {
    var out, all := Translation(source, lines[..n]), Translation(source, lines);
    PassBrings(items, source, lines[..n], date, KeyOf(all[i]));
    var j :| 0 <= j < |out| && Replay.CarriedBy(out[j], "", date, KeyOf(all[i]));
    LongerHistoriesCarry(source, lines, n, j);
    EventsAreApart(source, lines);
  }

  lemma NotYetKnown(s: Tier, source: string, lines: seq<string>, cuts: seq<nat>, passes: seq<seq<Item>>, k: nat, i: nat,
                    it: Item)
    requires ArePasses(passes, source, lines, cuts) && Replay.CleanPasses(s, passes)
    requires FirstHas(source, lines, cuts, k, i) && Has(source, lines, i)
    requires it.Key() == KeyOf(Translation(source, lines)[i]) && !Known(s, it)
    ensures !Known(Replay.Passes(s, passes[..k]), it)
  {
    var before := passes[..k];
    forall j | 0 <= j < k ensures Replay.Clean(Replay.Passes(s, before[..j]), before[j]) {
      PrefixOfPrefix(passes, k, j);
    }
    Replay.PassesFile(s, before, it.Date(), it.Key());
    forall j | 0 <= j < k ensures !Replay.Brings(before[j], it.Date(), it.Key()) {
      if Replay.Brings(before[j], it.Date(), it.Key()) {
        OnlyItsOwnKey(passes[j], source, lines, cuts[j], i, it.Date());
      }
    }
  }

  predicate IsText(e: Event) {
    e.UserPrompt? || e.ModelResponse?
  }

  /** A prompt or answer stays filed as what the first pass made of it that found it. */
  lemma FirstPassFiles(s: Tier, source: string, lines: seq<string>, cuts: seq<nat>, passes: seq<seq<Item>>,
                       k: nat, i: nat)
    requires ArePasses(passes, source, lines, cuts) && Replay.CleanPasses(s, passes)
    requires FirstHas(source, lines, cuts, k, i) && IsText(passes[k][i].env.event) && !Known(s, passes[k][i])
    ensures NodeAt(Replay.Passes(s, passes), passes[k][i]) == Some(ContentNode(passes[k][i], ""))
  {
    LongerHistoriesCarry(source, lines, cuts[k], i);
    NotYetKnown(s, source, lines, cuts, passes, k, i, passes[k][i]);
    PassesAreApart(passes[k], source, lines[..cuts[k]]);
    NewContentIsFiled(Replay.Passes(s, passes[..k]), passes[k], i);
    NextPass(s, passes, k);
    KnownNodesLast(s, passes, k + 1, passes[k][i]);
  }

  lemma SameTextSameNode(it: Item, other: Item)
    requires IsText(it.env.event) && GrownFrom(it.env.event, other.env.event)
    ensures ContentNode(it, "") == ContentNode(other, "") <==> it.env.event == other.env.event
  {
  }

  /** What is stored of a prompt or an answer is what one ingest of the whole history stores of it, unless it was the
      last of the history when it was first read and has gone on since. */
  lemma TextsAreKeptExactlyWhen(s: Tier, source: string, lines: seq<string>, cuts: seq<nat>, passes: seq<seq<Item>>,
                                whole: seq<Item>, k: nat, i: nat)
    requires ArePasses(passes, source, lines, cuts) && Replay.CleanPasses(s, passes)
    requires PassOver(whole, source, lines) && Replay.Clean(s, whole)
    requires FirstHas(source, lines, cuts, k, i) && IsText(passes[k][i].env.event) && !Known(s, passes[k][i])
    ensures i < |whole|
    ensures var st := Body(source, lines[..cuts[k]]);
            NodeAt(Replay.Passes(s, passes), whole[i]) == NodeAt(IngestAll(s, whole).store, whole[i]) <==>
            !(i == |st.out| && GoesOn(st, lines[cuts[k]..]))
  {
    var n := cuts[k];
    WholeHas(source, lines, n, passes[k], whole, i);
    FirstPassFiles(s, source, lines, cuts, passes, k, i);
    NodeOfSameKey(Replay.Passes(s, passes), passes[k][i], whole[i]);
    PassesAreApart(whole, source, lines);
    NewContentIsFiled(s, whole, i);
    SameTextSameNode(passes[k][i], whole[i]);
  }

  lemma NodeOfSameKey(s: Tier, it: Item, other: Item)
    requires it.Key() == other.Key() && it.Date() == other.Date()
    ensures NodeAt(s, it) == NodeAt(s, other) && (Known(s, it) <==> Known(s, other))
  {
  }

  /** What a shorter history has, the whole has in the same place, if need be with a longer text. */
  lemma WholeHas(source: string, lines: seq<string>, n: nat, items: seq<Item>, whole: seq<Item>, i: nat)
    requires n <= |lines| && PassOver(items, source, lines[..n]) && PassOver(whole, source, lines)
    requires Has(source, lines[..n], i)
    ensures i < |whole| && Has(source, lines, i)
    ensures items[i].Key() == whole[i].Key() && items[i].Date() == whole[i].Date()
    ensures GrownFrom(items[i].env.event, whole[i].env.event)
    ensures var st := Body(source, lines[..n]);
            items[i].env.event == whole[i].env.event <==> !(i == |st.out| && GoesOn(st, lines[n..]))
  {
    assert lines[..n] + lines[n..] == lines;
    ContentKeepsItsPlace(source, lines[..n], lines[n..], i);
    HistoryEvents(source, lines, i);
    HistoriesAreDated(source, lines);
  }

  /** Every interleaving of Aider histories keeps its sessions apart. */
  lemma HistoriesAreApart(items: seq<Item>, sources: seq<string>, histories: seq<seq<string>>, from: seq<nat>,
                          at: seq<nat>, sid: SessionKey)
    requires |sources| == |histories| && |from| == |at| == |items|
    requires forall i :: 0 <= i < |items| ==>
      from[i] < |sources| && at[i] < |Translation(sources[from[i]], histories[from[i]])|
      && items[i].env == Translation(sources[from[i]], histories[from[i]])[at[i]]
    ensures Sessions.KeysApart(items, sid)
  {
    forall i | 0 <= i < |items| ensures items[i].env.hostId == HOST_ID && Sessions.OwnNumber(items[i].env) {
      HistoryEvents(sources[from[i]], histories[from[i]], at[i]);
    }
    Sessions.NumberedSessionsAreApart(items, HOST_ID, sid);
  }

  // ---- a line that is not finished -------------------------------------------------------------------------

  const HEADER := "# aider chat started at"

  /** A session is open and nothing waits. */
  predicate Idle(st: State) {
    st.session.Some? && st.user == [] && st.model == []
  }

  lemma HalfAHeaderIsProse(source: string, lines: seq<string>)
    requires Idle(Body(source, lines))
    ensures var st := Body(source, lines);
            st.out + [Next(st, ModelResponse("#"))] <= Translation(source, lines + ["#"])
  {
    var st := Body(source, lines);
    HashIsProse();
    BodyOnward(source, lines, ["#"]);
    AnswerAtTheEnd(st.(model := ["#"]));
    OneMoreLine(source, st);
  }

  lemma HashIsProse()
    ensures KindOf("#").Prose? && !Blank("#") && Trim("#") == "#" && Join(["#"]) == "#"
  {
    assert !IsSpace("#"[0]);
  }

  lemma OneMoreLine(source: string, st: State)
    requires Idle(st)
    ensures Onward(source, st, ["#"]) == st.(model := ["#"])
  {
    HashIsProse();
    assert ["#"][1..] == [];
    NothingMore(["#"]);
  }

  lemma AHeaderEndsTheSession(source: string, lines: seq<string>, ts: string)
    requires Idle(Body(source, lines))
    ensures var st := Body(source, lines);
            st.out + [Next(st, SessionEnded)] <= Translation(source, lines + [HEADER + ts])
  {
    var st, line := Body(source, lines), HEADER + ts;
    assert line[0] == '#' && TrimStart(line) == line;
    assert HEADER <= line;
    assert (lines + [line])[..|lines|] == lines;
    assert Body(source, lines + [line]) == Open(source, st, KindOf(line).ts);
    FlushOnlyAdds(Body(source, lines + [line]));
  }

  /** A history that is read when its last line is a first piece of a header need not converge: what is filed of the
      piece has the key of the end of session that the whole header brings. */
  lemma HalfAHeaderDoesNotConverge(s: Tier, source: string, lines: seq<string>, ts: string, first: seq<Item>,
                                   whole: seq<Item>)
    requires Idle(Body(source, lines))
    requires PassOver(first, source, lines + ["#"]) && PassOver(whole, source, lines + [HEADER + ts])
    requires Replay.CleanPasses(s, [first, whole]) && Replay.Clean(s, whole)
    requires KnownUpTo(s, whole, 0)
    ensures var n := |Body(source, lines).out|;
            && n < |first| && n < |whole| && first[n].Key() == whole[n].Key()
            && DayContains(Replay.Passes(s, [first, whole]), first[n].Date(), first[n].Key())
            && !DayContains(IngestAll(s, whole).store, first[n].Date(), first[n].Key())
  {
    var st := Body(source, lines);
    var n := |st.out|;
    HalfAHeaderIsProse(source, lines);
    AHeaderEndsTheSession(source, lines, ts);
    NextOfPrefix(st.out, Next(st, ModelResponse("#")), Translation(source, lines + ["#"]));
    NextOfPrefix(st.out, Next(st, SessionEnded), Translation(source, lines + [HEADER + ts]));
    PieceIsFiled(s, source, lines + ["#"], first, whole, n);
    EndIsNotFiled(s, source, lines + [HEADER + ts], whole, n, first[n].Date());
  }

  lemma PieceIsFiled(s: Tier, source: string, lines: seq<string>, first: seq<Item>, whole: seq<Item>, n: nat)
    requires PassOver(first, source, lines) && Has(source, lines, n) && Replay.CleanPasses(s, [first, whole])
    ensures DayContains(Replay.Passes(s, [first, whole]), first[n].Date(), first[n].Key())
  {
    HistoriesAreDated(source, lines);
    PassBrings(first, source, lines, first[n].Date(), first[n].Key());
    assert Replay.CarriedBy(Translation(source, lines)[n], "", first[n].Date(), first[n].Key());
    var passes := [first, whole];
    assert Replay.Brings(passes[0], first[n].Date(), first[n].Key());
    Replay.PassesFile(s, passes, first[n].Date(), first[n].Key());
  }

  lemma EndIsNotFiled(s: Tier, source: string, lines: seq<string>, whole: seq<Item>, n: nat, date: string)
    requires PassOver(whole, source, lines) && n < |whole| && !whole[n].env.event.IsContent()
    requires Replay.Clean(s, whole) && KnownUpTo(s, whole, 0)
    ensures !DayContains(IngestAll(s, whole).store, date, whole[n].Key())
  {
    EventsAreApart(source, lines);
    PassBrings(whole, source, lines, date, whole[n].Key());
    Replay.IngestFiles(s, whole, date, whole[n].Key());
  }
}
