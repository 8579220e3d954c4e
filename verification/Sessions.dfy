/** Sessions interleaved in one stream do not interfere. */
module Sessions {
  import opened Basics
  import opened Events
  import opened EventIds
  import opened Store
  import opened Ingest

  /** The events of one session, in order. */
  function Only(items: seq<Item>, sid: SessionKey): seq<Item> {
    if items == [] then []
    else
      var rest := Only(items[..|items| - 1], sid);
      if items[|items| - 1].Session() == sid then rest + [items[|items| - 1]] else rest
  }

  /** One session's share of what a run reports. */
  function ShareOf(s: Tier, items: seq<Item>, sid: SessionKey): Report {
    if items == [] then EMPTY_REPORT
    else
      var before, it := items[..|items| - 1], items[|items| - 1];
      if it.Session() == sid then Note(ShareOf(s, before, sid), it, Effect(Run(Start(s), before), it))
      else ShareOf(s, before, sid)
  }

  /** Two stores that agree on what one session can observe: its names, and the day entries outside `foreign`. */
  ghost predicate AgreeFor(s: Tier, t: Tier, sid: SessionKey, foreign: set<(string, EventKey)>) {
    && (forall n :: ScopeOf(n) == Some(sid) ==> Lookup(s.names, n) == Lookup(t.names, n))
    && (forall d, k :: (d, k) !in foreign ==> FiledRecord(s, d, k) == FiledRecord(t, d, k))
  }

  // ---- an envelope of another session ------------------------------------------------------------

  /** A waiting start marker is a name of the session that waits. */
  predicate MarkerIsOwn(st: SessionState, sid: SessionKey) {
    st.startMarker.Some? ==> ScopeOf(st.startMarker.value) == Some(sid)
  }

  lemma ForeignWrites(known: bool, st: SessionState, it: Item, n: Name)
    requires ScopeOf(n).Some? && ScopeOf(n) != Some(it.Session()) && MarkerIsOwn(st, it.Session())
    ensures !BindsName(Handle(known, st, it).writes, n)
  {
    HandleWrites(known, st, it);
  }

  lemma HandleKeepsMarkerOwn(known: bool, st: SessionState, it: Item)
    requires MarkerIsOwn(st, it.Session())
    ensures MarkerIsOwn(Handle(known, st, it).state, it.Session())
  {
    HandleWrites(known, st, it);
  }

  // ---- runs ----------------------------------------------------------------------------------

  lemma {:induction false} MarkersAreOwn(s: Tier, items: seq<Item>, sid: SessionKey)
    ensures MarkerIsOwn(StateOf(Run(Start(s), items), sid), sid)
  {
    if items != [] {
      var before, it := items[..|items| - 1], items[|items| - 1];
      MarkersAreOwn(s, before, sid);
      if it.Session() == sid {
        var w := Run(Start(s), before);
        HandleKeepsMarkerOwn(Known(w.store, it), StateOf(w, sid), it);
      }
    }
  }

  /** No other session files anything under a (date, key) that an event of this session has. */
  predicate KeysApart(items: seq<Item>, sid: SessionKey) {
    forall i, j :: 0 <= i < |items| && 0 <= j < |items| && items[i].Session() == sid && items[j].Session() != sid ==>
      items[i].Date() != items[j].Date() || items[i].Key() != items[j].Key()
  }

  function ForeignPairs(items: seq<Item>, sid: SessionKey): set<(string, EventKey)> {
    set i | 0 <= i < |items| && items[i].Session() != sid :: (items[i].Date(), items[i].Key())
  }

  /** The session's own (date, key) pairs are not foreign, and everyone else's are. */
  predicate Separates(items: seq<Item>, sid: SessionKey, foreign: set<(string, EventKey)>) {
    forall i :: 0 <= i < |items| ==> (items[i].Session() == sid <==> (items[i].Date(), items[i].Key()) !in foreign)
  }

  lemma ForeignPairsSeparate(items: seq<Item>, sid: SessionKey)
    requires KeysApart(items, sid)
    ensures Separates(items, sid, ForeignPairs(items, sid))
  {
  }

  lemma {:induction false} Isolated(s: Tier, items: seq<Item>, sid: SessionKey, foreign: set<(string, EventKey)>)
    requires Separates(items, sid, foreign)
    ensures var w, a := Run(Start(s), items), Run(Start(s), Only(items, sid));
            && StateOf(w, sid) == StateOf(a, sid)
            && ShareOf(s, items, sid) == a.report
            && AgreeFor(w.store, a.store, sid, foreign)
  {
    if items != [] {
      var before, it := items[..|items| - 1], items[|items| - 1];
      Isolated(s, before, sid, foreign);
      var w, a := Run(Start(s), before), Run(Start(s), Only(before, sid));
      if it.Session() == sid {
        RunSnoc(Start(s), Only(before, sid), it);
        assert FiledRecord(w.store, it.Date(), it.Key()) == FiledRecord(a.store, it.Date(), it.Key());
        OwnStep(w, a, it, foreign);
      } else {
        MarkersAreOwn(s, before, it.Session());
        ForeignStep(w, a, it, sid, foreign);
      }
    }
  }

  lemma OwnStep(w: World, a: World, it: Item, foreign: set<(string, EventKey)>)
    requires StateOf(w, it.Session()) == StateOf(a, it.Session())
    requires AgreeFor(w.store, a.store, it.Session(), foreign)
    requires FiledRecord(w.store, it.Date(), it.Key()) == FiledRecord(a.store, it.Date(), it.Key())
    ensures Effect(w, it) == Effect(a, it)
    ensures AgreeFor(Step(w, it).store, Step(a, it).store, it.Session(), foreign)
  {
    var ws := Effect(w, it).writes;
    forall n | ScopeOf(n) == Some(it.Session())
      ensures Lookup(Apply(w.store, ws).names, n) == Lookup(Apply(a.store, ws).names, n)
    {
      ApplyAgreesOnName(w.store, a.store, ws, n);
    }
    forall d, k | (d, k) !in foreign
      ensures FiledRecord(Apply(w.store, ws), d, k) == FiledRecord(Apply(a.store, ws), d, k)
    {
      ApplyAgreesOnKey(w.store, a.store, ws, d, k);
    }
  }

  lemma ForeignStep(w: World, a: World, it: Item, sid: SessionKey, foreign: set<(string, EventKey)>)
    requires it.Session() != sid && (it.Date(), it.Key()) in foreign
    requires MarkerIsOwn(StateOf(w, it.Session()), it.Session())
    requires AgreeFor(w.store, a.store, sid, foreign)
    ensures AgreeFor(Step(w, it).store, a.store, sid, foreign)
  {
    var st, ws := StateOf(w, it.Session()), Effect(w, it).writes;
    HandleWrites(Known(w.store, it), st, it);
    forall n | ScopeOf(n) == Some(sid) ensures Lookup(Apply(w.store, ws).names, n) == Lookup(a.store.names, n) {
      ForeignWrites(Known(w.store, it), st, it, n);
      ApplyBinds(w.store, ws, n);
    }
    forall d, k | (d, k) !in foreign ensures FiledRecord(Apply(w.store, ws), d, k) == FiledRecord(a.store, d, k) {
      ApplyFiles(w.store, ws, d, k);
    }
  }

  /** Sessions do not interfere.  In any stream, whatever is refused, if no other session has an event under
      the same (date, key) as one of this session's, then this session ends in the same state, contributes the
      same records, checkpoints, blobs, counts and skips in the same order, finds the same names under its own
      scope and the same records filed under its own keys, as if its events had been ingested alone. */
  lemma SessionsDoNotInterfere(s: Tier, items: seq<Item>, sid: SessionKey)
    requires KeysApart(items, sid)
    ensures var w, alone := Run(Start(s), items), Run(Start(s), Only(items, sid));
            && StateOf(w, sid) == StateOf(alone, sid)
            && ShareOf(s, items, sid) == alone.report
            && (forall n :: ScopeOf(n) == Some(sid) ==> Lookup(w.store.names, n) == Lookup(alone.store.names, n))
            && (forall i :: 0 <= i < |items| && items[i].Session() == sid ==>
                  FiledRecord(w.store, items[i].Date(), items[i].Key())
                  == FiledRecord(alone.store, items[i].Date(), items[i].Key()))
  {
    ForeignPairsSeparate(items, sid);
    Isolated(s, items, sid, ForeignPairs(items, sid));
    forall i | 0 <= i < |items| && items[i].Session() == sid
      ensures (items[i].Date(), items[i].Key()) !in ForeignPairs(items, sid) {}
  }

  /** Numbered by its own session. */
  ghost predicate OwnNumber(env: Envelope) {
    exists n: nat :: env.eventId == Some(Numbered(env.sessionId, n))
  }

  /** Sessions whose events are numbered by session have no key in common, so any interleaving of them keeps
      them apart. */
  lemma NumberedSessionsAreApart(items: seq<Item>, host: string, sid: SessionKey)
    requires forall i :: 0 <= i < |items| ==> items[i].env.hostId == host && OwnNumber(items[i].env)
    ensures KeysApart(items, sid)
  {
    forall i, j | 0 <= i < |items| && 0 <= j < |items| && items[i].Session() == sid && items[j].Session() != sid
      ensures items[i].Key() != items[j].Key()
    {
      var a, b := items[i].env, items[j].env;
      var m: nat :| a.eventId == Some(Numbered(a.sessionId, m));
      var n: nat :| b.eventId == Some(Numbered(b.sessionId, n));
      IdsAreDistinct(a.sessionId, m, b.sessionId, n);
    }
  }
}
