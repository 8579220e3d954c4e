/** The pairing of tool results with the arguments of their calls, read off a transcript: a result takes the oldest
    arguments that wait for its tool and session. */
module Pairing {
  import opened Basics
  import opened Events

  predicate Announces(env: Envelope, sid: SessionKey, tool: string) {
    SessionOf(env) == sid && env.event.ToolCallStarted? && env.event.tool == tool
  }

  predicate Finishes(env: Envelope, sid: SessionKey, tool: string) {
    SessionOf(env) == sid && env.event.ToolCallFinished? && env.event.tool == tool
  }

  predicate Opens(env: Envelope, sid: SessionKey) {
    SessionOf(env) == sid && env.event.SessionStarted?
  }

  /** What one event does to the arguments that wait for a tool, if it counts. */
  function QueueAfter(q: seq<string>, env: Envelope, sid: SessionKey, tool: string, counts: bool): seq<string> {
    if Opens(env, sid) then []
    else if Announces(env, sid, tool) then q + [OrElse(env.event.argsJson, "")]
    else if Finishes(env, sid, tool) && counts && q != [] then q[1..]
    else q
  }

  /** What waits after the events, from what waited before them, if the results before position `n` do not count. */
  function Backlog(q: seq<string>, envs: seq<Envelope>, sid: SessionKey, tool: string, n: nat): seq<string> {
    if envs == [] then q
    else QueueAfter(Backlog(q, envs[..|envs| - 1], sid, tool, n), envs[|envs| - 1], sid, tool, |envs| - 1 >= n)
  }

  /** The arguments the next result gets. */
  function Oldest(q: seq<string>): string {
    if q == [] then "" else q[0]
  }

  /** The arguments that go with event `i`, if it is a result and those before `n` do not count. */
  function InputIn(envs: seq<Envelope>, i: nat, n: nat): string
    requires i < |envs|
  {
    var env := envs[i];
    if env.event.ToolCallFinished? then Oldest(Backlog([], envs[..i], SessionOf(env), env.event.tool, n)) else ""
  }

  /** The arguments of the session's calls of the tool since its last start. */
  function Announced(envs: seq<Envelope>, sid: SessionKey, tool: string): seq<string> {
    if envs == [] then []
    else
      var before, env := Announced(envs[..|envs| - 1], sid, tool), envs[|envs| - 1];
      if Opens(env, sid) then []
      else if Announces(env, sid, tool) then before + [OrElse(env.event.argsJson, "")]
      else before
  }

  lemma BacklogSnoc(q: seq<string>, envs: seq<Envelope>, env: Envelope, sid: SessionKey, tool: string, n: nat)
    ensures Backlog(q, envs + [env], sid, tool, n)
            == QueueAfter(Backlog(q, envs, sid, tool, n), env, sid, tool, |envs| >= n)
  {
    assert (envs + [env])[..|envs|] == envs;
  }

  /** The events of one part after those of another. */
  lemma {:induction false} BacklogOfTwo(q: seq<string>, a: seq<Envelope>, b: seq<Envelope>, sid: SessionKey,
                                        tool: string)
    ensures Backlog(q, a + b, sid, tool, 0) == Backlog(Backlog(q, a, sid, tool, 0), b, sid, tool, 0)
  {
    if b == [] {
      NothingMore(a);
    } else {
      var before, last := b[..|b| - 1], b[|b| - 1];
      BacklogOfTwo(q, a, before, sid, tool);
      SplitLast(b);
      Regroup(a, before, [last]);
      BacklogSnoc(q, a + before, last, sid, tool, 0);
      BacklogSnoc(Backlog(q, a, sid, tool, 0), before, last, sid, tool, 0);
    }
  }

  predicate IsSuffix(q: seq<string>, args: seq<string>) {
    |q| <= |args| && q == args[|args| - |q|..]
  }

  lemma SuffixAfter(q: seq<string>, args: seq<string>, arg: string)
    requires IsSuffix(q, args)
    ensures IsSuffix(q + [arg], args + [arg])
    ensures q != [] ==> IsSuffix(q[1..], args)
  {
  }

  /** What waits are the last of the announced arguments. */
  lemma {:induction false} BacklogIsLast(envs: seq<Envelope>, sid: SessionKey, tool: string, n: nat)
    ensures IsSuffix(Backlog([], envs, sid, tool, n), Announced(envs, sid, tool))
  {
    if envs != [] {
      var before, env := envs[..|envs| - 1], envs[|envs| - 1];
      BacklogIsLast(before, sid, tool, n);
      SuffixAfter(Backlog([], before, sid, tool, n), Announced(before, sid, tool),
                  if env.event.ToolCallStarted? then OrElse(env.event.argsJson, "") else "");
    }
  }

  /** Arguments by which the calls can be told apart. */
  predicate AllDifferent(args: seq<string>) {
    "" !in args && forall i, j :: 0 <= i < j < |args| ==> args[i] != args[j]
  }

  lemma OldestTells(q: seq<string>, r: seq<string>, args: seq<string>)
    requires AllDifferent(args) && IsSuffix(q, args) && IsSuffix(r, args)
    ensures Oldest(q) == Oldest(r) <==> |q| == |r|
  {
    if q != [] {
      assert q[0] == args[|args| - |q|] && q[0] in args;
    }
    if r != [] {
      assert r[0] == args[|args| - |r|] && r[0] in args;
    }
  }

  /** Where the announced arguments are all different, the next result gets the same whether results before `m` or
      before `n` do not count exactly when as many wait either way. */
  lemma DifferentArgumentsTell(envs: seq<Envelope>, sid: SessionKey, tool: string, m: nat, n: nat)
    requires AllDifferent(Announced(envs, sid, tool))
    ensures Oldest(Backlog([], envs, sid, tool, m)) == Oldest(Backlog([], envs, sid, tool, n))
            <==> |Backlog([], envs, sid, tool, m)| == |Backlog([], envs, sid, tool, n)|
  {
    BacklogIsLast(envs, sid, tool, m);
    BacklogIsLast(envs, sid, tool, n);
    OldestTells(Backlog([], envs, sid, tool, m), Backlog([], envs, sid, tool, n), Announced(envs, sid, tool));
  }

  // ---- results that do not count -------------------------------------------------------------------------

  /** A result of the tool before position `n` and after the session's last start. */
  predicate HasResultBefore(envs: seq<Envelope>, sid: SessionKey, tool: string, n: nat) {
    exists j :: 0 <= j < |envs| && j < n && Finishes(envs[j], sid, tool)
      && forall m :: j < m < |envs| ==> !Opens(envs[m], sid)
  }

  lemma ResultBefore(before: seq<Envelope>, env: Envelope, sid: SessionKey, tool: string, n: nat)
    requires !HasResultBefore(before + [env], sid, tool, n) && !Opens(env, sid)
    ensures !HasResultBefore(before, sid, tool, n) && (Finishes(env, sid, tool) ==> |before| >= n)
  {
    var envs := before + [env];
    forall j | 0 <= j < |before| && j < n && Finishes(before[j], sid, tool)
      ensures exists m :: j < m < |before| && Opens(before[m], sid)
    {
      assert Finishes(envs[j], sid, tool);
      var m :| j < m < |envs| && Opens(envs[m], sid);
      assert before[m] == envs[m];
    }
    assert envs[|before|] == env;
  }

  /** Whether results count that there are none of makes no difference. */
  lemma {:induction false} NothingUsedBefore(envs: seq<Envelope>, sid: SessionKey, tool: string, n: nat)
    requires !HasResultBefore(envs, sid, tool, n)
    ensures Backlog([], envs, sid, tool, n) == Backlog([], envs, sid, tool, 0)
  {
    if envs != [] {
      var before, env := envs[..|envs| - 1], envs[|envs| - 1];
      if !Opens(env, sid) {
        SplitLast(envs);
        ResultBefore(before, env, sid, tool, n);
        NothingUsedBefore(before, sid, tool, n);
      }
    }
  }

  // ---- a part that is read on its own --------------------------------------------------------------------

  /** How many results of the tool find nothing waiting when the events are read on their own. */
  function Unmet(envs: seq<Envelope>, sid: SessionKey, tool: string): nat {
    if envs == [] then 0
    else
      var before, env := envs[..|envs| - 1], envs[|envs| - 1];
      Unmet(before, sid, tool)
      + if Finishes(env, sid, tool) && Backlog([], before, sid, tool, 0) == [] then 1 else 0
  }

  function Left(waiting: nat, used: nat): nat {
    if used < waiting then waiting - used else 0
  }

  /** Without a start, the events leave the last of what waited and of what they announce: as many as when read on
      their own, and what waited before less the results that found nothing on their own. */
  lemma {:induction false} BacklogsCompared(q: seq<string>, envs: seq<Envelope>, sid: SessionKey, tool: string)
    requires forall i :: 0 <= i < |envs| ==> !Opens(envs[i], sid)
    ensures IsSuffix(Backlog(q, envs, sid, tool, 0), q + Announced(envs, sid, tool))
    ensures |Backlog(q, envs, sid, tool, 0)|
            == |Backlog([], envs, sid, tool, 0)| + Left(|q|, Unmet(envs, sid, tool))
  {
    if envs == [] {
      assert q + [] == q;
    } else {
      var before, env := envs[..|envs| - 1], envs[|envs| - 1];
      BacklogsCompared(q, before, sid, tool);
      var arg := if env.event.ToolCallStarted? then OrElse(env.event.argsJson, "") else "";
      SuffixAfter(Backlog(q, before, sid, tool, 0), q + Announced(before, sid, tool), arg);
      Regroup(q, Announced(before, sid, tool), [arg]);
    }
  }

  lemma SuffixOfMore(q: seq<string>, head: seq<string>, args: seq<string>)
    requires IsSuffix(q, args)
    ensures IsSuffix(q, head + args)
  {
  }

  lemma SuffixesOfOneLength(q: seq<string>, r: seq<string>, args: seq<string>)
    requires IsSuffix(q, args) && IsSuffix(r, args) && |q| == |r|
    ensures q == r
  {
  }

  /** A part read on its own gives its next result the arguments it has in the whole if as many of its results found
      nothing as calls were waiting where it began. */
  lemma OnItsOwn(q: seq<string>, envs: seq<Envelope>, sid: SessionKey, tool: string)
    requires forall i :: 0 <= i < |envs| ==> !Opens(envs[i], sid)
    ensures |q| <= Unmet(envs, sid, tool) ==> Backlog(q, envs, sid, tool, 0) == Backlog([], envs, sid, tool, 0)
    ensures AllDifferent(q + Announced(envs, sid, tool)) ==>
              (Oldest(Backlog(q, envs, sid, tool, 0)) == Oldest(Backlog([], envs, sid, tool, 0))
               <==> |q| <= Unmet(envs, sid, tool))
  {
    var args := q + Announced(envs, sid, tool);
    var here, alone := Backlog(q, envs, sid, tool, 0), Backlog([], envs, sid, tool, 0);
    BacklogsCompared(q, envs, sid, tool);
    BacklogIsLast(envs, sid, tool, 0);
    SuffixOfMore(alone, q, Announced(envs, sid, tool));
    if |q| <= Unmet(envs, sid, tool) {
      SuffixesOfOneLength(here, alone, args);
    }
    if AllDifferent(args) {
      OldestTells(here, alone, args);
    }
  }
}
