/** The ingest as the code keeps it: names bound and sessions looked up by strings.  Where ids are plain it is the
    ingest of `Ingest`, so what is proved of names as data holds of the strings. */
module KeyedRuns {
  import opened Basics
  import opened Events
  import opened Store
  import opened Ingest
  import opened NameStrings
  import Sessions
  import History
  import Replay

  /** A store whose names are strings (`store.names` is not looked at), and sessions under their keys. */
  datatype Keyed = Keyed(store: Tier, names: map<string, Cid>, sessions: map<string, SessionState>, report: Report)

  function StateUnder(w: Keyed, key: string): SessionState {
    if key in w.sessions then w.sessions[key] else FRESH
  }

  function BindAll(digest: Digest, names: map<string, Cid>, ws: seq<Write>): map<string, Cid> {
    if ws == [] then names
    else
      var before := BindAll(digest, names, ws[..|ws| - 1]);
      match ws[|ws| - 1]
      case BindOne(n, cid) => before[Rendered(digest, n) := cid]
      case _ => before
  }

  function StepKeyed(digest: Digest, w: Keyed, it: Item): Keyed {
    var key := SessionKeyString(it.Session());
    var o := Handle(Known(w.store, it), StateUnder(w, key), it);
    Keyed(Apply(w.store, o.writes), BindAll(digest, w.names, o.writes), w.sessions[key := o.state],
          Note(w.report, it, o))
  }

  function RunKeyed(digest: Digest, w: Keyed, items: seq<Item>): Keyed {
    if items == [] then w else StepKeyed(digest, RunKeyed(digest, w, items[..|items| - 1]), items[|items| - 1])
  }

  function StartKeyed(s: Tier, names: map<string, Cid>): Keyed {
    Keyed(s, names, map[], EMPTY_REPORT)
  }

  // ---- plain ids -------------------------------------------------------------------------------------------

  predicate PlainSession(sid: SessionKey) {
    Plain(sid.host) && Plain(sid.session) && '\0' !in sid.host
  }

  predicate PlainItems(items: seq<Item>) {
    forall i :: 0 <= i < |items| ==> PlainSession(items[i].Session())
  }

  /** The strings say what the names say. */
  ghost predicate SameNames(digest: Digest, strings: map<string, Cid>, names: map<Name, Cid>) {
    forall n :: PlainName(n) ==> Lookup(strings, Rendered(digest, n)) == Lookup(names, n)
  }

  ghost predicate SameSessions(w: Keyed, a: World) {
    forall sid :: PlainSession(sid) ==> StateUnder(w, SessionKeyString(sid)) == StateOf(a, sid)
  }

  ghost predicate SameWorld(digest: Digest, w: Keyed, a: World) {
    w.store == a.store && w.report == a.report && SameNames(digest, w.names, a.store.names) && SameSessions(w, a)
  }

  predicate BindsPlain(ws: seq<Write>) {
    forall i :: 0 <= i < |ws| && ws[i].BindOne? ==> PlainName(ws[i].name)
  }

  lemma {:induction false} WritesAgree(digest: Digest, strings: map<string, Cid>, s: Tier, ws: seq<Write>)
    requires Faithful(digest) && SameNames(digest, strings, s.names) && BindsPlain(ws)
    ensures SameNames(digest, BindAll(digest, strings, ws), Apply(s, ws).names)
  {
    if ws != [] {
      var before, last := ws[..|ws| - 1], ws[|ws| - 1];
      assert forall i :: 0 <= i < |before| ==> before[i] == ws[i];
      WritesAgree(digest, strings, s, before);
      if last.BindOne? {
        BindAgrees(digest, BindAll(digest, strings, before), Apply(s, before).names, last.name, last.cid);
      }
    }
  }

  lemma BindAgrees(digest: Digest, strings: map<string, Cid>, names: map<Name, Cid>, m: Name, cid: Cid)
    requires Faithful(digest) && SameNames(digest, strings, names) && PlainName(m)
    ensures SameNames(digest, strings[Rendered(digest, m) := cid], names[m := cid])
  {
    forall n | PlainName(n)
      ensures Lookup(strings[Rendered(digest, m) := cid], Rendered(digest, n)) == Lookup(names[m := cid], n)
    {
      PlainNamesAreApart(digest, m, n);
    }
  }

  lemma HandleBindsPlain(known: bool, st: SessionState, it: Item)
    requires PlainSession(it.Session()) && Sessions.MarkerIsOwn(st, it.Session())
    ensures BindsPlain(Handle(known, st, it).writes)
  {
    HandleWrites(known, st, it);
  }

  lemma CutLaterHoldsTheMark(a: SessionKey, b: SessionKey)
    requires CutLater(a, b)
    ensures '\0' in a.host
  {
    var piece :| a.host == b.host + "\0" + piece && b.session == piece + "\0" + a.session;
    assert a.host[|b.host|] == '\0';
  }

  lemma KeysAreApart(a: SessionKey, b: SessionKey)
    requires PlainSession(a) && PlainSession(b)
    ensures SessionKeyString(a) == SessionKeyString(b) <==> a == b
  {
    SessionsShareAKeyExactlyWhen(a, b);
    if CutLater(a, b) {
      CutLaterHoldsTheMark(a, b);
    } else if CutLater(b, a) {
      CutLaterHoldsTheMark(b, a);
    }
  }

  lemma StepsAgree(digest: Digest, w: Keyed, a: World, it: Item)
    requires Faithful(digest) && SameWorld(digest, w, a) && PlainSession(it.Session())
    requires Sessions.MarkerIsOwn(StateOf(a, it.Session()), it.Session())
    ensures SameWorld(digest, StepKeyed(digest, w, it), Step(a, it))
  {
    var o := Effect(a, it);
    assert StateUnder(w, SessionKeyString(it.Session())) == StateOf(a, it.Session());
    HandleBindsPlain(Known(a.store, it), StateOf(a, it.Session()), it);
    WritesAgree(digest, w.names, a.store, o.writes);
    forall sid | PlainSession(sid)
      ensures StateUnder(StepKeyed(digest, w, it), SessionKeyString(sid)) == StateOf(Step(a, it), sid)
    {
      KeysAreApart(sid, it.Session());
    }
  }

  /** With plain ids, a run over strings is the run over names. */
  lemma {:induction false} RunsAgree(digest: Digest, s: Tier, names: map<string, Cid>, items: seq<Item>)
    requires Faithful(digest) && PlainItems(items) && SameNames(digest, names, s.names)
    ensures SameWorld(digest, RunKeyed(digest, StartKeyed(s, names), items), Run(Start(s), items))
  {
    if items != [] {
      var before, it := items[..|items| - 1], items[|items| - 1];
      RunsAgree(digest, s, names, before);
      Sessions.MarkersAreOwn(s, before, it.Session());
      StepsAgree(digest, RunKeyed(digest, StartKeyed(s, names), before), Run(Start(s), before), it);
    }
  }

  // ---- main results ----------------------------------------------------------------------------------------

  lemma {:induction false} OnlyIsPlain(items: seq<Item>, sid: SessionKey)
    requires PlainItems(items)
    ensures PlainItems(Sessions.Only(items, sid))
  {
    if items != [] {
      OnlyIsPlain(items[..|items| - 1], sid);
    }
  }

  /** Sessions with plain ids do not interfere in the strings either: every string that is a name of the session
      resolves as if its events had been ingested alone, and its state under its key is the same. */
  lemma PlainSessionsDoNotInterfere(digest: Digest, s: Tier, names: map<string, Cid>, items: seq<Item>,
                                    sid: SessionKey, n: Name)
    requires Faithful(digest) && PlainItems(items) && SameNames(digest, names, s.names)
    requires PlainSession(sid) && Sessions.KeysApart(items, sid) && ScopeOf(n) == Some(sid)
    ensures var w := RunKeyed(digest, StartKeyed(s, names), items);
            var alone := RunKeyed(digest, StartKeyed(s, names), Sessions.Only(items, sid));
            && Lookup(w.names, Rendered(digest, n)) == Lookup(alone.names, Rendered(digest, n))
            && StateUnder(w, SessionKeyString(sid)) == StateUnder(alone, SessionKeyString(sid))
  {
    OnlyIsPlain(items, sid);
    RunsAgree(digest, s, names, items);
    RunsAgree(digest, s, names, Sessions.Only(items, sid));
    Sessions.SessionsDoNotInterfere(s, items, sid);
  }

  /** And the string of a latest name resolves to the last checkpoint of its scope. */
  lemma PlainLatestIsTheLastCheckpoint(digest: Digest, s: Tier, names: map<string, Cid>, items: seq<Item>, n: Name)
    requires Faithful(digest) && PlainItems(items) && SameNames(digest, names, s.names) && Replay.Clean(s, items)
    requires PlainName(n) && History.MovedByCheckpoints(n)
    ensures Lookup(RunKeyed(digest, StartKeyed(s, names), items).names, Rendered(digest, n)) ==
            if History.LastFollowed(s, items, n).Some? then History.LastFollowed(s, items, n)
            else Lookup(names, Rendered(digest, n))
  {
    RunsAgree(digest, s, names, items);
    History.LatestNamesTheLastCheckpoint(s, items, n);
  }
}
