/** The names of the store as the strings they are bound under (`scoped_names`, `marker_name` and `session_key` in
    crates/adapter-jsonl/src/lib.rs), and exactly when two of them are one string. */
module NameStrings {
  import opened Basics
  import opened Events
  import opened Store
  import opened Text

  /** The digest of an envelope without its import provenance, in hexadecimal. */
  type Digest = Envelope -> string

  predicate Hexadecimal(s: string) {
    forall i :: 0 <= i < |s| ==> IsDigit(s[i]) || 'a' <= s[i] <= 'f'
  }

  ghost predicate Faithful(digest: Digest) {
    && (forall a, b :: digest(a) == digest(b) ==> a == b)
    && forall a :: Hexadecimal(digest(a))
  }

  function Field(head: string, tail: string): string {
    head + ":" + tail
  }

  function FullName(sid: SessionKey): string {
    Field(sid.host, Field("session", sid.session))
  }

  function Rendered(digest: Digest, n: Name): string {
    match n
    case ProjectLatest(project) => Field("project", Field(project, "latest"))
    case Latest => "latest"
    case _ => Field("host", Field(Stem(n), Ending(digest, n)))
  }

  /** A name that belongs to a host or to one of its sessions. */
  predicate OfHost(n: Name) {
    !n.ProjectLatest? && !n.Latest?
  }

  /** Whose name it is. */
  function Stem(n: Name): string
    requires OfHost(n)
  {
    match n
    case HostLatest(host) => host
    case CheckpointName(sid, _) => FullName(sid)
    case SessionLatest(sid) => FullName(sid)
    case EventMarker(sid, _) => FullName(sid)
  }

  function Ending(digest: Digest, n: Name): string
    requires OfHost(n)
  {
    match n
    case HostLatest(_) => "latest"
    case SessionLatest(_) => "latest"
    case CheckpointName(_, title) => Field("checkpoint", title)
    case EventMarker(_, of) => Field("event", digest(of))
  }

  function OwnName(sid: SessionKey): string {
    "host:" + sid.host + ":session:" + sid.session
  }

  /** How the names are written. */
  lemma NamesReadAs(digest: Digest, sid: SessionKey, title: string, of: Envelope)
    ensures Rendered(digest, CheckpointName(sid, title)) == OwnName(sid) + (":" + ("checkpoint:" + title))
    ensures Rendered(digest, SessionLatest(sid)) == OwnName(sid) + (":" + "latest")
    ensures Rendered(digest, EventMarker(sid, of)) == OwnName(sid) + (":" + ("event:" + digest(of)))
  {
    SessionNameReadsAs(sid, "latest");
    SessionNameReadsAs(sid, Field("checkpoint", title));
    SessionNameReadsAs(sid, Field("event", digest(of)));
    assert "checkpoint" + ":" == "checkpoint:" && "event" + ":" == "event:";
  }

  lemma WideNamesReadAs(digest: Digest, host: string, project: string)
    ensures Rendered(digest, HostLatest(host)) == "host:" + (host + ":latest")
    ensures Rendered(digest, ProjectLatest(project)) == "project:" + (project + ":latest")
    ensures Rendered(digest, Latest) == "latest"
  {
    assert "host" + ":" == "host:" && "project" + ":" == "project:" && ":" + "latest" == ":latest";
    Regroup(host, ":", "latest");
    Regroup(project, ":", "latest");
  }

  lemma SessionNameReadsAs(sid: SessionKey, ending: string)
    ensures Field("host", Field(FullName(sid), ending))
            == OwnName(sid) + (":" + ending)
  {
  }

  // ---- texts with a mark -----------------------------------------------------------------------------------

  /** A text that is split at two places by the same mark. */
  lemma LaterMark(a: string, x: string, b: string, y: string, mark: char) returns (m: string)
    requires a + [mark] + x == b + [mark] + y && |a| > |b|
    ensures a == b + [mark] + m && y == m + [mark] + x
  {
    m := a[|b| + 1..];
    var s, t := a + [mark] + x, b + [mark] + y;
    assert a == s[..|a|] && b == t[..|b|] && t[|b|] == mark;
    assert y == t[|b| + 1..] && s[|b| + 1..] == m + [mark] + x;
  }

  lemma SameMark(a: string, x: string, b: string, y: string, mark: char)
    requires |a| == |b|
    ensures a + [mark] + x == b + [mark] + y <==> a == b && x == y
  {
    SameSums(a + [mark], b + [mark], x, y);
    SameSums(a, b, [mark], [mark]);
  }

  lemma FieldsAreApart(a: string, x: string, b: string, y: string)
    requires ':' !in a && ':' !in b
    ensures Field(a, x) == Field(b, y) <==> a == b && x == y
  {
    SplitAtFirst(a, x, ':');
    SplitAtFirst(b, y, ':');
  }

  // ---- when two names are one string -----------------------------------------------------------------------

  /** The owner of `m` is named like the checkpoint name `n` up to somewhere in its title, and the rest of the title is
      the ending of `m`. */
  ghost predicate Continues(digest: Digest, m: Name, n: Name)
    requires OfHost(m) && OfHost(n)
  {
    n.CheckpointName? &&
    exists w :: Field(Stem(m), "") == Field(Stem(n), Field("checkpoint", w)) && n.title == w + Ending(digest, m)
  }

  /** Both ends of a name agree, or one continues a checkpoint name. */
  ghost predicate Meet(digest: Digest, m: Name, n: Name) {
    if OfHost(m) && OfHost(n) then
      || (Stem(m) == Stem(n) && Ending(digest, m) == Ending(digest, n))
      || Continues(digest, m, n) || Continues(digest, n, m)
    else m == n
  }

  lemma FirstLetter(head: string, tail: string)
    requires head != ""
    ensures Field(head, tail)[0] == head[0]
  {
  }

  /** Names of a host, of a project and of neither begin differently. */
  lemma Initial(digest: Digest, n: Name)
    ensures var s := Rendered(digest, n);
            s != "" && s[0] == match n case ProjectLatest(_) => 'p' case Latest => 'l' case _ => 'h'
  {
    match n
    case ProjectLatest(project) => FirstLetter("project", Field(project, "latest"));
    case Latest =>
    case _ => FirstLetter("host", Field(Stem(n), Ending(digest, n)));
  }

  lemma ProjectsAreApart(a: string, b: string)
    ensures Field("project", Field(a, "latest")) == Field("project", Field(b, "latest")) <==> a == b
  {
    FieldsAreApart("project", Field(a, "latest"), "project", Field(b, "latest"));
    if Field(a, "latest") == Field(b, "latest") {
      SameMark(a, "latest", b, "latest", ':');
    }
  }

  lemma FieldAndMore(a: string, b: string, w: string, e: string)
    ensures Field(a, e) == Field(a, "") + e
    ensures Field(a, Field(b, w + e)) == Field(a, Field(b, w)) + e
  {
  }

  lemma ContinuedRendersAlike(digest: Digest, m: Name, n: Name)
    requires OfHost(m) && OfHost(n) && Continues(digest, m, n)
    ensures Field(Stem(m), Ending(digest, m)) == Field(Stem(n), Ending(digest, n))
  {
    var e := Ending(digest, m);
    var w :| Field(Stem(m), "") == Field(Stem(n), Field("checkpoint", w)) && n.title == w + e;
    FieldAndMore(Stem(m), "", "", e);
    FieldAndMore(Stem(n), "checkpoint", w, e);
  }

  lemma MarkersAreNotCut(digest: Digest, of: Envelope, m: Name, z: string)
    requires Faithful(digest) && OfHost(m)
    ensures Field("event", digest(of)) != Field(z, Ending(digest, m))
  {
    assert Hexadecimal(digest(of));
    var e := Field("event", digest(of));
    if e == Field(z, Ending(digest, m)) {
      assert e[|z|] == ':';
      assert forall i :: 6 <= i < |e| ==> e[i] == digest(of)[i - 6];
      assert |z| == 5;
      assert Ending(digest, m) == e[6..] && Ending(digest, m) == digest(of);
      HasNoHex(digest, m);
    }
  }

  lemma HasNoHex(digest: Digest, m: Name)
    requires OfHost(m)
    ensures !Hexadecimal(Ending(digest, m))
  {
    var e := Ending(digest, m);
    assert e[1] == if m.CheckpointName? then 'h' else if m.EventMarker? then 'v' else 'a';
    assert e[0] == if m.CheckpointName? then 'c' else if m.EventMarker? then 'e' else 'l';
  }

  /** No ending but a checkpoint's can be cut at a colon with another ending behind it. */
  lemma OnlyCheckpointsAreCut(digest: Digest, m: Name, n: Name, z: string) returns (w: string)
    requires Faithful(digest) && OfHost(m) && OfHost(n) && Ending(digest, n) == Field(z, Ending(digest, m))
    ensures n.CheckpointName? && Field(z, "") == Field("checkpoint", w) && n.title == w + Ending(digest, m)
  {
    assert Ending(digest, n)[|z|] == ':';
    if n.EventMarker? {
      MarkersAreNotCut(digest, n.of, m, z);
    } else if n.CheckpointName? {
      w := CutInTheTitle(n.title, z, Ending(digest, m));
    }
  }

  lemma CutInTheTitle(title: string, z: string, ending: string) returns (w: string)
    requires Field("checkpoint", title) == Field(z, ending)
    ensures Field(z, "") == Field("checkpoint", w) && title == w + ending
  {
    var e, n := Field("checkpoint", title), |Field("checkpoint", "")|;
    assert e[|z|] == ':' && e[..n] == Field("checkpoint", "");
    assert |z| >= n - 1;
    w := Field(z, "")[n..];
    assert Field(z, "") == e[..|z| + 1];
    FieldAndMore(z, "", "", ending);
    FieldAndMore("checkpoint", "", "", title);
    assert title == e[n..] && e[n..] == w + ending;
  }

  lemma LongerStemContinues(digest: Digest, m: Name, n: Name)
    requires Faithful(digest) && OfHost(m) && OfHost(n) && |Stem(m)| > |Stem(n)|
    requires Field(Stem(m), Ending(digest, m)) == Field(Stem(n), Ending(digest, n))
    ensures Continues(digest, m, n)
  {
    var z := LaterMark(Stem(m), Ending(digest, m), Stem(n), Ending(digest, n), ':');
    var w := OnlyCheckpointsAreCut(digest, m, n, z);
    assert Field(Stem(m), "") == Field(Stem(n), Field(z, ""));
  }

  /** Exactly when two names are one string. */
  lemma NamesMeetExactlyWhen(digest: Digest, m: Name, n: Name)
    requires Faithful(digest)
    ensures Rendered(digest, m) == Rendered(digest, n) <==> Meet(digest, m, n)
  {
    if OfHost(m) && OfHost(n) {
      HostNamesMeetExactlyWhen(digest, m, n);
    } else if m.ProjectLatest? && n.ProjectLatest? {
      ProjectsAreApart(m.project, n.project);
    } else {
      Initial(digest, m);
      Initial(digest, n);
    }
  }

  lemma HostNamesMeetExactlyWhen(digest: Digest, m: Name, n: Name)
    requires Faithful(digest) && OfHost(m) && OfHost(n)
    ensures Rendered(digest, m) == Rendered(digest, n) <==> Meet(digest, m, n)
  {
    var p, q := Field(Stem(m), Ending(digest, m)), Field(Stem(n), Ending(digest, n));
    FieldsAreApart("host", p, "host", q);
    if Continues(digest, m, n) {
      ContinuedRendersAlike(digest, m, n);
    }
    if Continues(digest, n, m) {
      ContinuedRendersAlike(digest, n, m);
    }
    if p == q {
      if |Stem(m)| > |Stem(n)| {
        LongerStemContinues(digest, m, n);
      } else if |Stem(m)| < |Stem(n)| {
        LongerStemContinues(digest, n, m);
      } else {
        SameMark(Stem(m), Ending(digest, m), Stem(n), Ending(digest, n), ':');
      }
    }
  }

  // ---- whose names can meet --------------------------------------------------------------------------------

  const MARK := ":session:"

  predicate MarkAt(s: string, p: nat) {
    p + |MARK| <= |s| && s[p..p + |MARK|] == MARK
  }

  lemma FullNameIs(sid: SessionKey)
    ensures FullName(sid) == sid.host + MARK + sid.session
    ensures MarkAt(FullName(sid), |sid.host|)
  {
    assert FullName(sid)[|sid.host|..|sid.host| + |MARK|] == MARK;
  }

  /** The session whose host ends where the mark stands. */
  lemma CutAt(s: string, p: nat) returns (sid: SessionKey)
    requires MarkAt(s, p)
    ensures |sid.host| == p && FullName(sid) == s
  {
    sid := SessionKey(s[..p], s[p + |MARK|..]);
    FullNameIs(sid);
  }

  lemma FullNamesTell(a: SessionKey, b: SessionKey)
    requires FullName(a) == FullName(b) && |a.host| == |b.host|
    ensures a == b
  {
    FullNameIs(a);
    FullNameIs(b);
    var s, p := FullName(a), |a.host|;
    assert a.host == s[..p] && b.host == s[..p];
    assert a.session == s[p + |MARK|..] && b.session == s[p + |MARK|..];
  }

  /** Another session has the same full name, and so the same latest name, exactly when the mark between host and
      session stands somewhere else in it too. */
  lemma SessionsShareANameExactlyWhen(digest: Digest, a: SessionKey)
    requires Faithful(digest)
    ensures (exists b :: b != a && Rendered(digest, SessionLatest(a)) == Rendered(digest, SessionLatest(b)))
            <==> exists p: nat :: p != |a.host| && MarkAt(FullName(a), p)
  {
    forall b
      ensures Rendered(digest, SessionLatest(a)) == Rendered(digest, SessionLatest(b)) <==> FullName(a) == FullName(b)
    {
      NamesMeetExactlyWhen(digest, SessionLatest(a), SessionLatest(b));
    }
    if b :| b != a && Rendered(digest, SessionLatest(a)) == Rendered(digest, SessionLatest(b)) {
      FullNameIs(b);
      if |a.host| == |b.host| {
        FullNamesTell(a, b);
      }
    }
    if p: nat :| p != |a.host| && MarkAt(FullName(a), p) {
      var b := CutAt(FullName(a), p);
    }
  }

  /** The latest name of a session is the latest name of one host, which is called like the session in full. */
  lemma HostsShareANameExactlyWhen(digest: Digest, a: SessionKey, host: string)
    requires Faithful(digest)
    ensures Rendered(digest, SessionLatest(a)) == Rendered(digest, HostLatest(host)) <==> host == FullName(a)
  {
    NamesMeetExactlyWhen(digest, SessionLatest(a), HostLatest(host));
  }

  /** No id need hold the mark for that: it is enough that a session's id begins like its end. */
  lemma SessionsCanShareAName(digest: Digest, host: string, session: string)
    ensures Rendered(digest, SessionLatest(SessionKey(host, Field("session", session))))
            == Rendered(digest, SessionLatest(SessionKey(Field(host, "session"), session)))
  {
    FieldsOf(host, "session", session);
  }

  /** Colons alone do little harm: sessions that differ by where a colon is taken for the end of the host share a name
      only if the piece between reads the same before and behind the mark's word. */
  lemma ColonsMeetExactlyWhen(digest: Digest, x: string, y: string, z: string)
    requires Faithful(digest)
    ensures Rendered(digest, SessionLatest(SessionKey(Field(x, y), z)))
            == Rendered(digest, SessionLatest(SessionKey(x, Field(y, z))))
            <==> Field(y, "session") == Field("session", y)
  {
    var a, b := SessionKey(Field(x, y), z), SessionKey(x, Field(y, z));
    NamesMeetExactlyWhen(digest, SessionLatest(a), SessionLatest(b));
    FieldsOf(x, y, z);
    SameSums(x + ":" + Field(y, "session"), x + ":" + Field("session", y), ":" + z, ":" + z);
    SameSums(x + ":", x + ":", Field(y, "session"), Field("session", y));
  }

  lemma FieldsOf(x: string, y: string, z: string)
    ensures FullName(SessionKey(Field(x, y), z)) == x + ":" + Field(y, "session") + (":" + z)
    ensures FullName(SessionKey(x, Field(y, z))) == x + ":" + Field("session", y) + (":" + z)
  {
    Regroup(x + ":", Field(y, "session"), ":" + z);
    Regroup(x + ":", Field("session", y), ":" + z);
  }

  predicate Plain(id: string) {
    ':' !in id
  }

  /** Host and session ids without a colon; titles and projects may have any. */
  predicate PlainName(n: Name) {
    match n
    case CheckpointName(sid, _) => Plain(sid.host) && Plain(sid.session)
    case SessionLatest(sid) => Plain(sid.host) && Plain(sid.session)
    case HostLatest(host) => Plain(host)
    case EventMarker(sid, _) => Plain(sid.host) && Plain(sid.session)
    case _ => true
  }

  /** What stands before the first colon of a stem, and what follows the session. */
  lemma PlainStems(m: Name, n: Name, x: string, y: string)
    requires OfHost(m) && OfHost(n) && PlainName(m) && PlainName(n)
    requires Field(Stem(m), x) == Field(Stem(n), y)
    ensures !m.HostLatest? && !n.HostLatest? ==> m.session == n.session && x == y
    ensures m.HostLatest? && !n.HostLatest? ==> x != "" && x[0] == 's'
    ensures m.HostLatest? && n.HostLatest? ==> m.host == n.host && x == y
  {
    if !m.HostLatest? && !n.HostLatest? {
      var a, b := m.session, n.session;
      FieldsRegroup(a, x);
      FieldsRegroup(b, y);
      FieldsAreApart(a.host, Field("session", Field(a.session, x)), b.host, Field("session", Field(b.session, y)));
      FieldsAreApart("session", Field(a.session, x), "session", Field(b.session, y));
      FieldsAreApart(a.session, x, b.session, y);
    } else if m.HostLatest? && n.HostLatest? {
      FieldsAreApart(m.host, x, n.host, y);
    } else if m.HostLatest? {
      var b := n.session;
      FieldsRegroup(b, y);
      FieldsAreApart(m.host, x, b.host, Field("session", Field(b.session, y)));
    }
  }

  lemma FieldsRegroup(sid: SessionKey, tail: string)
    ensures Field(FullName(sid), tail) == Field(sid.host, Field("session", Field(sid.session, tail)))
  {
  }

  lemma PlainNamesDoNotContinue(digest: Digest, m: Name, n: Name)
    requires OfHost(m) && OfHost(n) && PlainName(m) && PlainName(n)
    ensures !Continues(digest, m, n)
  {
    forall w | n.CheckpointName? ensures Field(Stem(m), "") != Field(Stem(n), Field("checkpoint", w)) {
      if Field(Stem(m), "") == Field(Stem(n), Field("checkpoint", w)) {
        PlainStems(m, n, "", Field("checkpoint", w));
      }
    }
  }

  lemma PlainEndingsAreApart(digest: Digest, m: Name, n: Name)
    requires Faithful(digest) && OfHost(m) && OfHost(n) && PlainName(m) && PlainName(n)
    requires Stem(m) == Stem(n) && Ending(digest, m) == Ending(digest, n)
    ensures m == n
  {
    PlainStems(m, n, "", "");
    PlainStems(n, m, "", "");
    if !m.HostLatest? {
      SessionEndingsAreApart(digest, m, n);
    }
  }

  lemma SessionEndingsAreApart(digest: Digest, m: Name, n: Name)
    requires Faithful(digest) && OfHost(m) && OfHost(n) && !m.HostLatest? && !n.HostLatest?
    requires m.session == n.session && Ending(digest, m) == Ending(digest, n)
    ensures m == n
  {
    EndingStarts(digest, m);
    EndingStarts(digest, n);
    if m.CheckpointName? && n.CheckpointName? {
      FieldsAreApart("checkpoint", m.title, "checkpoint", n.title);
    } else if m.EventMarker? && n.EventMarker? {
      FieldsAreApart("event", digest(m.of), "event", digest(n.of));
    }
  }

  lemma EndingStarts(digest: Digest, n: Name)
    requires OfHost(n)
    ensures Ending(digest, n) != ""
    ensures Ending(digest, n)[0] == if n.CheckpointName? then 'c' else if n.EventMarker? then 'e' else 'l'
  {
  }

  /** Different names are different strings, for hosts and sessions whose ids have no colon. */
  lemma PlainNamesAreApart(digest: Digest, m: Name, n: Name)
    requires Faithful(digest) && PlainName(m) && PlainName(n)
    ensures Rendered(digest, m) == Rendered(digest, n) <==> m == n
  {
    NamesMeetExactlyWhen(digest, m, n);
    if OfHost(m) && OfHost(n) {
      PlainNamesDoNotContinue(digest, m, n);
      PlainNamesDoNotContinue(digest, n, m);
      if Meet(digest, m, n) {
        PlainEndingsAreApart(digest, m, n);
      }
    }
  }

  /** The calendar's own names are nobody else's, so they can be kept apart from the rest. */
  lemma CalendarNamesAreApart(digest: Digest, n: Name, what: string)
    ensures Rendered(digest, n) != "day-" + what && Rendered(digest, n) != "month-" + what
            && Rendered(digest, n) != "year-" + what
  {
    Initial(digest, n);
    assert ("day-" + what)[0] == 'd' && ("month-" + what)[0] == 'm' && ("year-" + what)[0] == 'y';
  }

  // ---- the keys of sessions ----------------------------------------------------------------------------------

  /** The key a run keeps its sessions under. */
  function SessionKeyString(sid: SessionKey): string {
    sid.host + "\0" + sid.session
  }

  /** The host of `a` is that of `b` with the separator and a first piece of the session of `b`. */
  ghost predicate CutLater(a: SessionKey, b: SessionKey) {
    exists piece :: a.host == b.host + "\0" + piece && b.session == piece + "\0" + a.session
  }

  /** Two sessions share a key exactly when one host goes on into the other's session id. */
  lemma SessionsShareAKeyExactlyWhen(a: SessionKey, b: SessionKey)
    ensures SessionKeyString(a) == SessionKeyString(b) <==> a == b || CutLater(a, b) || CutLater(b, a)
  {
    if SessionKeyString(a) == SessionKeyString(b) {
      if |a.host| > |b.host| {
        var piece := LaterMark(a.host, a.session, b.host, b.session, '\0');
      } else if |a.host| < |b.host| {
        var piece := LaterMark(b.host, b.session, a.host, a.session, '\0');
      } else {
        SameMark(a.host, a.session, b.host, b.session, '\0');
      }
    }
    if CutLater(a, b) {
      CutLaterShares(a, b);
    }
    if CutLater(b, a) {
      CutLaterShares(b, a);
    }
  }

  lemma CutLaterShares(a: SessionKey, b: SessionKey)
    requires CutLater(a, b)
    ensures SessionKeyString(a) == SessionKeyString(b)
  {
    var piece :| a.host == b.host + "\0" + piece && b.session == piece + "\0" + a.session;
    assert SessionKeyString(a) == b.host + "\0" + (piece + "\0" + a.session);
  }
}
