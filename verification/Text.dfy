/** The few string operations the transcript adapters share. */
module Text {
  import opened Basics

  /** The white space of the Unicode standard. */
  predicate IsSpace(c: char) {
    '\t' <= c <= '\r' || c == ' ' || c == '\U{85}' || c == '\U{A0}' || c == '\U{1680}' ||
    '\U{2000}' <= c <= '\U{200A}' || c == '\U{2028}' || c == '\U{2029}' || c == '\U{202F}' || c == '\U{205F}' ||
    c == '\U{3000}'
  }

  predicate Blank(s: string) {
    forall i :: 0 <= i < |s| ==> IsSpace(s[i])
  }

  function Join(parts: seq<string>): string {
    if parts == [] then ""
    else if |parts| == 1 then parts[0]
    else Join(parts[..|parts| - 1]) + "\n" + parts[|parts| - 1]
  }

  function TrimStart(s: string): string {
    if s != "" && IsSpace(s[0]) then TrimStart(s[1..]) else s
  }

  function TrimEnd(s: string): string {
    if s != "" && IsSpace(s[|s| - 1]) then TrimEnd(s[..|s| - 1]) else s
  }

  function Trim(s: string): string {
    TrimEnd(TrimStart(s))
  }

  /** What follows a prefix, if `s` has it. */
  function StripPrefix(s: string, prefix: string): (r: Option<string>)
    ensures r.Some? <==> prefix <= s
    ensures r.Some? ==> s == prefix + r.value
  {
    if prefix <= s then Some(s[|prefix|..]) else None
  }

  /** The parts before and after the first `mark`, if there is one. */
  function SplitOnce(s: string, mark: char): (r: Option<(string, string)>)
    ensures r.Some? ==> mark !in r.value.0 && s == r.value.0 + [mark] + r.value.1
    ensures r.Some? <==> mark in s
  {
    if s == "" then None
    else if s[0] == mark then Some(("", s[1..]))
    else match SplitOnce(s[1..], mark)
      case None => None
      case Some((head, tail)) => Some(([s[0]] + head, tail))
  }

  lemma {:induction false} SplitAtFirst(head: string, tail: string, mark: char)
    requires mark !in head
    ensures SplitOnce(head + [mark] + tail, mark) == Some((head, tail))
  {
    var s := head + [mark] + tail;
    if head == "" {
      assert s[1..] == tail;
    } else {
      assert head == [head[0]] + head[1..] && s[0] == head[0];
      assert s[1..] == head[1..] + [mark] + tail;
      SplitAtFirst(head[1..], tail, mark);
    }
  }

  lemma {:induction false} TrimStartCuts(s: string) returns (i: nat)
    ensures i <= |s| && TrimStart(s) == s[i..] && Blank(s[..i]) && (i < |s| ==> !IsSpace(s[i]))
  {
    i := 0;
    if s != "" && IsSpace(s[0]) {
      var k := TrimStartCuts(s[1..]);
      i := k + 1;
      assert s[..i] == [s[0]] + s[1..][..k];
    }
  }

  lemma {:induction false} TrimEndCuts(s: string) returns (j: nat)
    ensures j <= |s| && TrimEnd(s) == s[..j] && Blank(s[j..]) && (j > 0 ==> !IsSpace(s[j - 1]))
  {
    j := |s|;
    if s != "" && IsSpace(s[|s| - 1]) {
      var before := s[..|s| - 1];
      j := TrimEndCuts(before);
      assert before[..j] == s[..j] && s[j..] == before[j..] + [s[|s| - 1]];
    }
  }

  /** Trimming takes away the white space around a text and nothing else. */
  lemma TrimCuts(s: string) returns (before: string, after: string)
    ensures s == before + Trim(s) + after && Blank(before) && Blank(after)
    ensures Trim(s) != "" ==> !IsSpace(Trim(s)[0]) && !IsSpace(Trim(s)[|Trim(s)| - 1])
  {
    var i := TrimStartCuts(s);
    var j := TrimEndCuts(s[i..]);
    before, after := s[..i], s[i..][j..];
  }

  /** The lines of a text, one more than it has ends of lines. */
  function LinesIn(s: string): (lines: seq<string>)
    ensures lines != []
  {
    if s == "" then [""]
    else
      var before, last := LinesIn(s[..|s| - 1]), s[|s| - 1];
      if last == '\n' then before + [""] else before[..|before| - 1] + [before[|before| - 1] + [last]]
  }

  lemma {:induction false} LineGoesOn(s: string, more: string)
    requires '\n' !in more
    ensures var lines := LinesIn(s); LinesIn(s + more) == lines[..|lines| - 1] + [lines[|lines| - 1] + more]
  {
    if more == "" {
      NothingMore(s);
      NothingMore(LinesIn(s)[|LinesIn(s)| - 1]);
    } else {
      var before, last := more[..|more| - 1], more[|more| - 1];
      LineGoesOn(s, before);
      assert last in more && (s + more)[..|s + more| - 1] == s + before;
      assert before + [last] == more;
      var lines := LinesIn(s);
      Regroup(lines[|lines| - 1], before, [last]);
    }
  }

  /** Joined parts are the lines of the text, in order. */
  lemma {:induction false} JoinedAreLines(parts: seq<string>)
    requires parts != [] && forall i :: 0 <= i < |parts| ==> '\n' !in parts[i]
    ensures LinesIn(Join(parts)) == parts
  {
    var n := |parts| - 1;
    var last := parts[n];
    assert '\n' !in last;
    if n == 0 {
      LineGoesOn("", last);
      NothingMore(last);
    } else {
      JoinedAreLines(parts[..n]);
      var head := Join(parts[..n]) + "\n";
      assert head[..|head| - 1] == Join(parts[..n]);
      LineGoesOn(head, last);
      NothingMore(last);
      SplitLast(parts);
    }
  }
}
