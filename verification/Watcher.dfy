/** The capture loop over a directory of Claude Code sessions (`capture_once` in crates/adapter-claude-code/src/lib.rs):
    one offset per file, moved on by every pass that can read the file. */
module Watcher {
  import opened Basics
  import opened Events
  import opened ClaudeCode
  import Tail

  /** A session file found by a pass. */
  datatype Found = Found(path: string, look: Tail.Look)

  /** What a pass hands to the ingest for one file. */
  datatype Capture = Capture(path: string, envelopes: seq<Envelope>)

  function OffsetOf(offsets: map<string, nat>, path: string): nat {
    OrElse(Lookup(offsets, path), 0)
  }

  /** What the passes before found of one file. */
  function LooksAt(found: seq<Found>, path: string): seq<Tail.Look> {
    if found == [] then []
    else LooksAt(found[..|found| - 1], path) + if found[|found| - 1].path == path then [found[|found| - 1].look] else []
  }

  /** What is handed on of one file. */
  function CapturesOf(captured: seq<Capture>, path: string): seq<seq<Envelope>> {
    if captured == [] then []
    else
      var last := captured[|captured| - 1];
      CapturesOf(captured[..|captured| - 1], path) + if last.path == path then [last.envelopes] else []
  }

  function Readable(sessions: seq<Found>): seq<string> {
    if sessions == [] then []
    else
      var last := sessions[|sessions| - 1];
      Readable(sessions[..|sessions| - 1]) + if last.look.ok then [last.path] else []
  }

  /** Every file has been handed on as far as its own polls went, when the captures are added to what was before. */
  ghost predicate HandsOn(parse: Parser, before: seq<Found>, captured: seq<Capture>, after: seq<Found>) {
    forall path :: Tail.Outs(parse, LooksAt(after, path))
                   == Tail.Outs(parse, LooksAt(before, path)) + CapturesOf(captured, path)
  }

  function Paths(captured: seq<Capture>): (r: seq<string>)
    ensures |r| == |captured| && forall i :: 0 <= i < |r| ==> r[i] == captured[i].path
  {
    seq(|captured|, i requires 0 <= i < |captured| => captured[i].path)
  }

  class CaptureLoop {
    var offsets: map<string, nat>
    ghost var history: seq<Found>

    constructor ()
      ensures Valid() && history == []
    {
      offsets := map[];
      history := [];
    }

    /** Each file's offset is where its own polls have got to, whatever happened to the others. */
    ghost predicate Valid()
      reads this
    {
      forall path :: OffsetOf(offsets, path) == Tail.Offset(LooksAt(history, path))
    }

    method CaptureFile(parse: Parser, f: Found) returns (captured: seq<Capture>)
      requires Valid()
      modifies this
      ensures Valid() && history == old(history) + [f]
      ensures captured == if f.look.ok then
                            [Capture(f.path, PollOut(parse, f.look.file, Tail.Offset(LooksAt(old(history), f.path))))]
                          else []
    {
      captured := [];
      if f.look.ok {
        var envelopes, next := ReadFromOffset(parse, f.look.file, OffsetOf(offsets, f.path));
        offsets := offsets[f.path := next];
        captured := [Capture(f.path, envelopes)];
      }
      history := history + [f];
      forall path ensures OffsetOf(offsets, path) == Tail.Offset(LooksAt(history, path)) {
        assert history[..|history| - 1] == old(history);
        PathMovesOn(LooksAt(old(history), path), f, path);
      }
    }

    /** One pass hands on every readable file in the order they are listed, and of each what its own polls find. */
    method CaptureOnce(parse: Parser, sessions: seq<Found>) returns (captured: seq<Capture>)
      requires Valid()
      modifies this
      ensures Valid() && history == old(history) + sessions
      ensures Paths(captured) == Readable(sessions)
      ensures HandsOn(parse, old(history), captured, history)
    {
      captured := [];
      HandsOnNothing(parse, history);
      for i := 0 to |sessions|
        invariant Valid() && history == old(history) + sessions[..i]
        invariant Paths(captured) == Readable(sessions[..i])
        invariant HandsOn(parse, old(history), captured, history)
      {
        PrefixSnoc(sessions, i);
        ghost var before := history;
        var one := CaptureFile(parse, sessions[i]);
        PathsOn(captured, sessions[i], one, sessions[..i]);
        Regroup(old(history), sessions[..i], [sessions[i]]);
        HandsOnMore(parse, old(history), captured, before, sessions[i], one);
        captured := captured + one;
      }
      assert sessions[..|sessions|] == sessions;
    }
  }

  lemma PathMovesOn(looks: seq<Tail.Look>, f: Found, path: string)
    ensures Tail.Offset(looks + if f.path == path then [f.look] else [])
            == if f.path == path && f.look.ok then OffsetAfter(f.look.file, Tail.Offset(looks)) else Tail.Offset(looks)
  {
    assert (looks + [f.look])[..|looks|] == looks && looks + [] == looks;
  }

  lemma HandsOnNothing(parse: Parser, history: seq<Found>)
    ensures HandsOn(parse, history, [], history)
  {
    forall path ensures Tail.Outs(parse, LooksAt(history, path)) + CapturesOf([], path)
                        == Tail.Outs(parse, LooksAt(history, path)) {
      NothingMore(Tail.Outs(parse, LooksAt(history, path)));
    }
  }

  lemma HandsOnMore(parse: Parser, first: seq<Found>, captured: seq<Capture>, history: seq<Found>, f: Found,
                    one: seq<Capture>)
    requires HandsOn(parse, first, captured, history)
    requires one == if f.look.ok then
                      [Capture(f.path, PollOut(parse, f.look.file, Tail.Offset(LooksAt(history, f.path))))]
                    else []
    ensures HandsOn(parse, first, captured + one, history + [f])
  {
    forall path ensures Tail.Outs(parse, LooksAt(history + [f], path))
                        == Tail.Outs(parse, LooksAt(first, path)) + CapturesOf(captured + one, path) {
      PathHandsOn(parse, captured, history, f, one, path);
      Regroup(Tail.Outs(parse, LooksAt(first, path)), CapturesOf(captured, path), CapturesOf(one, path));
    }
  }

  lemma CapturesOn(captured: seq<Capture>, one: seq<Capture>, path: string)
    requires |one| <= 1
    ensures CapturesOf(captured + one, path) == CapturesOf(captured, path) + CapturesOf(one, path)
  {
    if one == [] {
      NothingMore(captured);
      NothingMore(CapturesOf(captured, path));
    } else {
      NothingMore(one);
      assert one[..0] == [] && (captured + one)[..|captured|] == captured;
    }
  }

  lemma OutsOn(parse: Parser, looks: seq<Tail.Look>, look: Tail.Look)
    ensures Tail.Outs(parse, looks + [look])
            == Tail.Outs(parse, looks)
               + if look.ok then [PollOut(parse, look.file, Tail.Offset(looks))] else []
  {
    assert (looks + [look])[..|looks|] == looks;
  }

  lemma LooksOn(history: seq<Found>, f: Found, path: string)
    ensures LooksAt(history + [f], path)
            == if f.path == path then LooksAt(history, path) + [f.look] else LooksAt(history, path)
  {
    assert (history + [f])[..|history|] == history;
    NothingMore(LooksAt(history, path));
  }

  lemma PathHandsOn(parse: Parser, captured: seq<Capture>, history: seq<Found>, f: Found, one: seq<Capture>,
                    path: string)
    requires one == if f.look.ok then
                      [Capture(f.path, PollOut(parse, f.look.file, Tail.Offset(LooksAt(history, f.path))))]
                    else []
    ensures CapturesOf(captured + one, path) == CapturesOf(captured, path) + CapturesOf(one, path)
    ensures Tail.Outs(parse, LooksAt(history + [f], path))
            == Tail.Outs(parse, LooksAt(history, path)) + CapturesOf(one, path)
  {
    CapturesOn(captured, one, path);
    LooksOn(history, f, path);
    OutsOn(parse, LooksAt(history, path), f.look);
    NothingMore(Tail.Outs(parse, LooksAt(history, path)));
    OneCapture(one, path);
  }

  lemma OneCapture(one: seq<Capture>, path: string)
    ensures one == [] ==> CapturesOf(one, path) == []
    ensures |one| == 1 ==> CapturesOf(one, path) == if one[0].path == path then [one[0].envelopes] else []
  {
    if |one| == 1 {
      assert one[..0] == [];
    }
  }

  lemma PathsOn(captured: seq<Capture>, f: Found, one: seq<Capture>, sessions: seq<Found>)
    requires Paths(captured) == Readable(sessions)
    requires if f.look.ok then |one| == 1 && one[0].path == f.path else one == []
    ensures Paths(captured + one) == Readable(sessions + [f])
  {
    assert (sessions + [f])[..|sessions|] == sessions;
  }
}
