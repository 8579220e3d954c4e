/** Turning a site's name into one a hosting platform accepts (crates/core/src/deploy.rs).  The three
    platforms differ only in the rules below.  The Unicode lower-casing table is a parameter. */
module SiteNames {
  import opened Basics

  /** Characters kept besides `a`-`z` and `0`-`9`, characters trimmed from the ends, the longest run of hyphens
      left standing, and the longest name. */
  datatype Rules = Rules(extra: set<char>, trim: set<char>, runs: nat, length: nat)

  const VERCEL := Rules({'.', '_', '-'}, {'-', '.', '_'}, 2, 100)
  const CLOUDFLARE := Rules({}, {'-'}, 1, 58)
  const NETLIFY := Rules({}, {'-'}, 1, 63)

  predicate Platform(p: Rules) {
    p == VERCEL || p == CLOUDFLARE || p == NETLIFY
  }

  predicate Alphanumeric(c: char) {
    'a' <= c <= 'z' || '0' <= c <= '9'
  }

  /** What is used of a lower-casing table, which may turn one character into several: it leaves what these
      rules allow alone. */
  ghost predicate LeavesAllowed(p: Rules, lower: char -> string) {
    forall c :: Allowed(p, c) ==> lower(c) == [c]
  }

  predicate Allowed(p: Rules, c: char) {
    Alphanumeric(c) || c in p.extra || c == '-'
  }

  // ---- runs of hyphens -----------------------------------------------------------------------------

  function Hyphens(k: nat): (r: string)
    ensures |r| == k && forall i :: 0 <= i < k ==> r[i] == '-'
  {
    seq(k, _ => '-')
  }

  predicate StartsWithRun(s: string, k: nat) {
    k <= |s| && s[..k] == Hyphens(k)
  }

  ghost predicate HasRun(s: string, k: nat) {
    exists i :: 0 <= i <= |s| && StartsWithRun(s[i..], k)
  }

  /** One pass of the library's replace, left to right without overlap: `n + 1` hyphens become `n`. */
  function ReplacePass(s: string, n: nat): (r: string)
    ensures |r| <= |s|
  {
    if s == "" then ""
    else if StartsWithRun(s, n + 1) then Hyphens(n) + ReplacePass(s[n + 1..], n)
    else [s[0]] + ReplacePass(s[1..], n)
  }

  /** The reference: each hyphen is kept while fewer than `n` precede it in its run; `r` do already. */
  function CapFrom(s: string, n: nat, r: nat): string {
    if s == "" then ""
    else if s[0] != '-' then [s[0]] + CapFrom(s[1..], n, 0)
    else if r < n then "-" + CapFrom(s[1..], n, r + 1)
    else CapFrom(s[1..], n, r)
  }

  function CapRuns(s: string, n: nat): string {
    CapFrom(s, n, 0)
  }

  lemma OneMoreHyphen(k: nat)
    ensures Hyphens(k + 1) == "-" + Hyphens(k)
  {
  }

  lemma {:induction false} CapOfRun(k: nat, s: string, n: nat, r: nat)
    requires r <= n
    ensures CapFrom(Hyphens(k) + s, n, r) == Hyphens(Min(r + k, n) - r) + CapFrom(s, n, Min(r + k, n))
  {
    if k == 0 {
      NothingMore(s);
      NothingMore(CapFrom(s, n, r));
    } else {
      var t := Hyphens(k) + s;
      OneMoreHyphen(k - 1);
      assert t[1..] == Hyphens(k - 1) + s && t[0] == '-';
      if r < n {
        CapOfRun(k - 1, s, n, r + 1);
        OneMoreHyphen(Min(r + k, n) - (r + 1));
        Regroup("-", Hyphens(Min(r + k, n) - (r + 1)), CapFrom(s, n, Min(r + k, n)));
      } else {
        CapOfRun(k - 1, s, n, r);
      }
    }
  }

  lemma {:induction false} CapOfText(p: string, q: string, n: nat, r: nat)
    requires p != "" && p[|p| - 1] != '-'
    ensures CapFrom(p + q, n, r) == CapFrom(p, n, r) + CapFrom(q, n, 0)
  {
    assert (p + q)[1..] == p[1..] + q;
    if |p| == 1 {
      assert p[1..] == "" && p[1..] + q == q && [p[0]] + "" == [p[0]];
    } else {
      CapOfText(p[1..], q, n, if p[0] != '-' then 0 else if r < n then r + 1 else r);
    }
  }

  /** `CapRuns` turns each maximal run of `k` hyphens into `min(k, n)` and leaves everything else alone. */
  lemma RunsAreCapped(p: string, k: nat, q: string, n: nat)
    requires p == "" || p[|p| - 1] != '-'
    requires q == "" || q[0] != '-'
    ensures CapRuns(p + Hyphens(k) + q, n) == CapRuns(p, n) + Hyphens(Min(k, n)) + CapRuns(q, n)
  {
    assert CapFrom(Hyphens(k) + q, n, 0) == Hyphens(Min(k, n)) + CapRuns(q, n) by {
      CapOfRun(k, q, n, 0);
    }
    Regroup(p, Hyphens(k), q);
    Regroup("", Hyphens(k) + q, "");
    if p != "" {
      CapOfText(p, Hyphens(k) + q, n, 0);
    }
    Regroup(CapRuns(p, n), Hyphens(Min(k, n)), CapRuns(q, n));
  }

  /** A pass of the replacement does not change what the runs cap to. */
  lemma {:induction false} PassKeepsCap(s: string, n: nat, r: nat)
    requires r <= n
    ensures CapFrom(ReplacePass(s, n), n, r) == CapFrom(s, n, r)
  {
    if s == "" {
    } else if StartsWithRun(s, n + 1) {
      var t := s[n + 1..];
      assert s == Hyphens(n + 1) + t;
      PassKeepsCap(t, n, n);
      CapOfRun(n + 1, t, n, r);
      CapOfRun(n, ReplacePass(t, n), n, r);
    } else {
      var u := [s[0]] + ReplacePass(s[1..], n);
      assert u[1..] == ReplacePass(s[1..], n);
      PassKeepsCap(s[1..], n, if s[0] != '-' then 0 else if r < n then r + 1 else r);
    }
  }

  lemma {:induction false} PassShrinks(s: string, n: nat)
    requires HasRun(s, n + 1)
    ensures |ReplacePass(s, n)| < |s|
  {
    if s != "" && !StartsWithRun(s, n + 1) {
      var i :| 0 <= i <= |s| && StartsWithRun(s[i..], n + 1);
      assert s[0..] == s;
      assert s[1..][i - 1..] == s[i..];
      PassShrinks(s[1..], n);
    }
  }

  lemma OneMoreIsARun(s: string, n: nat)
    requires s != "" && s[0] == '-'
    ensures HasRun(Hyphens(n) + s, n + 1)
  {
    var t := Hyphens(n) + s;
    assert t[0..] == t && t[..n + 1] == Hyphens(n + 1);
    assert StartsWithRun(t[0..], n + 1);
  }

  lemma {:induction false} CappedAlready(s: string, n: nat, r: nat)
    requires r <= n && !HasRun(Hyphens(r) + s, n + 1)
    ensures CapFrom(s, n, r) == s
  {
    if s != "" {
      var t := Hyphens(r) + s;
      assert s == [s[0]] + s[1..];
      if s[0] == '-' {
        assert t == Hyphens(r + 1) + s[1..];
        OneMoreIsARun(s, r);
        CappedAlready(s[1..], n, r + 1);
      } else {
        assert Hyphens(0) + s[1..] == s[1..];
        forall i | 0 <= i <= |s[1..]| ensures !StartsWithRun(s[1..][i..], n + 1) {
          assert t[r + 1 + i..] == s[1..][i..];
        }
        CappedAlready(s[1..], n, 0);
      }
    }
  }

  /** A capped text has no longer run left. */
  lemma {:induction false} CappedHasNoRun(s: string, n: nat, r: nat)
    requires r <= n
    ensures !HasRun(Hyphens(r) + CapFrom(s, n, r), n + 1)
  {
    var out := Hyphens(r) + CapFrom(s, n, r);
    if s == "" {
      forall i | 0 <= i <= |out| ensures !StartsWithRun(out[i..], n + 1) {}
    } else if s[0] == '-' && r < n {
      CappedHasNoRun(s[1..], n, r + 1);
      assert out == Hyphens(r + 1) + CapFrom(s[1..], n, r + 1);
    } else if s[0] == '-' {
      CappedHasNoRun(s[1..], n, r);
    } else {
      var rest := CapFrom(s[1..], n, 0);
      CappedHasNoRun(s[1..], n, 0);
      assert Hyphens(0) + rest == rest;
      assert out == Hyphens(r) + ([s[0]] + rest);
      forall i | 0 <= i <= |out| ensures !StartsWithRun(out[i..], n + 1) {
        if i > r {
          assert out[i..] == rest[i - r - 1..];
        } else {
          assert n + 1 <= |out[i..]| ==> out[i..][..n + 1][r - i] == s[0];
        }
      }
    }
  }

  // ---- the loop --------------------------------------------------------------------------------------

  /** Does `s` contain `k` hyphens in a row? */
  method Contains(s: string, k: nat) returns (found: bool)
    ensures found <==> HasRun(s, k)
  {
    for i := 0 to |s| + 1
      invariant forall j :: 0 <= j < i ==> !StartsWithRun(s[j..], k)
    {
      if StartsWithRun(s[i..], k) {
        return true;
      }
    }
    found := false;
  }

  /** Replacing until nothing is left to replace computes the cap. */
  method Collapse(s: string, n: nat) returns (out: string)
    ensures out == CapRuns(s, n)
  {
    out := s;
    var again := Contains(out, n + 1);
    while again
      invariant again <==> HasRun(out, n + 1)
      invariant CapRuns(out, n) == CapRuns(s, n)
      decreases |out|
    {
      PassShrinks(out, n);
      PassKeepsCap(out, n, 0);
      out := ReplacePass(out, n);
      again := Contains(out, n + 1);
    }
    assert Hyphens(0) + out == out;
    CappedAlready(out, n, 0);
  }

  // ---- the sanitizer ---------------------------------------------------------------------------------

  function LowerAll(lower: char -> string, s: string): string {
    if s == "" then "" else lower(s[0]) + LowerAll(lower, s[1..])
  }

  function Replaced(p: Rules, c: char): char {
    if Alphanumeric(c) || c in p.extra then c else '-'
  }

  function Mapped(p: Rules, s: string): (r: string)
    ensures |r| == |s|
    ensures forall i :: 0 <= i < |s| ==> r[i] == Replaced(p, s[i])
  {
    if s == "" then "" else [Replaced(p, s[0])] + Mapped(p, s[1..])
  }

  function TrimLeft(s: string, cs: set<char>): string {
    if s != "" && s[0] in cs then TrimLeft(s[1..], cs) else s
  }

  function TrimRight(s: string, cs: set<char>): string {
    if s != "" && s[|s| - 1] in cs then TrimRight(s[..|s| - 1], cs) else s
  }

  /** The name before it is cut to length. */
  function Text(p: Rules, lower: char -> string, name: string): string {
    TrimRight(TrimLeft(CapRuns(Mapped(p, LowerAll(lower, name)), p.runs), p.trim), p.trim)
  }

  function Cut(s: string, length: nat): string {
    if |s| <= length then s else s[..length]
  }

  function Name(p: Rules, lower: char -> string, name: string): string {
    var out := Cut(Text(p, lower, name), p.length);
    if out == "" then "site" else out
  }

  /** The sanitizer, step by step. */
  method Sanitize(p: Rules, lower: char -> string, name: string) returns (out: string)
    ensures out == Name(p, lower, name)
  {
    var text := LowerAll(lower, name);
    var mapped := "";
    for i := 0 to |text|
      invariant mapped == Mapped(p, text)[..i]
    {
      mapped := mapped + [Replaced(p, text[i])];
    }
    assert mapped == Mapped(p, text);
    out := Collapse(mapped, p.runs);
    while out != "" && out[0] in p.trim
      invariant TrimLeft(out, p.trim) == TrimLeft(CapRuns(mapped, p.runs), p.trim)
      decreases |out|
    {
      out := out[1..];
    }
    while out != "" && out[|out| - 1] in p.trim
      invariant TrimRight(out, p.trim) == Text(p, lower, name)
      decreases |out|
    {
      out := out[..|out| - 1];
    }
    if |out| > p.length {
      out := out[..p.length];
    }
    if out == "" {
      out := "site";
    }
  }

  /** What a platform accepts, but for the length. */
  ghost predicate Clean(p: Rules, s: string) {
    && s != ""
    && (forall i :: 0 <= i < |s| ==> Allowed(p, s[i]))
    && !HasRun(s, p.runs + 1)
    && s[0] !in p.trim && s[|s| - 1] !in p.trim
  }

  ghost predicate Valid(p: Rules, s: string) {
    Clean(p, s) && |s| <= p.length
  }

  predicate TwoHyphensAt(s: string, i: int) {
    0 <= i && i + 1 < |s| && s[i] == '-' && s[i + 1] == '-'
  }

  predicate ThreeHyphensAt(s: string, i: int) {
    TwoHyphensAt(s, i) && TwoHyphensAt(s, i + 1)
  }

  lemma RunsAreHyphens(s: string, i: nat)
    requires i <= |s|
    ensures StartsWithRun(s[i..], 2) <==> TwoHyphensAt(s, i)
    ensures StartsWithRun(s[i..], 3) <==> ThreeHyphensAt(s, i)
  {
    var t := s[i..];
    if |t| >= 3 {
      assert t[..3] == [t[0], t[1], t[2]];
    }
    if |t| >= 2 {
      assert t[..2] == [t[0], t[1]];
    }
  }

  lemma ShortRuns(s: string)
    ensures HasRun(s, 2) <==> exists i :: TwoHyphensAt(s, i)
    ensures HasRun(s, 3) <==> exists i :: ThreeHyphensAt(s, i)
  {
    forall i: nat | i <= |s|
      ensures StartsWithRun(s[i..], 2) <==> TwoHyphensAt(s, i)
      ensures StartsWithRun(s[i..], 3) <==> ThreeHyphensAt(s, i)
    {
      RunsAreHyphens(s, i);
    }
  }

  /** The valid names of Vercel: up to 100 characters, dots and underscores allowed, no three hyphens together. */
  lemma VercelNames(s: string)
    ensures Valid(VERCEL, s) <==>
              && 0 < |s| <= 100 && (forall i :: 0 <= i < |s| ==> Alphanumeric(s[i]) || s[i] in {'-', '.', '_'})
              && (forall i :: !ThreeHyphensAt(s, i)) && Alphanumeric(s[0]) && Alphanumeric(s[|s| - 1])
  {
    ShortRuns(s);
  }

  /** Those of the others: up to 58 and 63 characters, and no two hyphens together. */
  lemma CloudflareAndNetlifyNames(s: string)
    ensures Valid(CLOUDFLARE, s) <==> Hyphenated(s) && |s| <= 58
    ensures Valid(NETLIFY, s) <==> Hyphenated(s) && |s| <= 63
  {
    ShortRuns(s);
  }

  predicate Hyphenated(s: string) {
    && s != "" && (forall i :: 0 <= i < |s| ==> Alphanumeric(s[i]) || s[i] == '-')
    && (forall i :: 0 <= i < |s| ==> !TwoHyphensAt(s, i)) && Alphanumeric(s[0]) && Alphanumeric(s[|s| - 1])
  }

  lemma RunsOfSlice(s: string, i: nat, j: nat, k: nat)
    requires i <= j <= |s| && HasRun(s[i..j], k)
    ensures HasRun(s, k)
  {
    var at :| 0 <= at <= |s[i..j]| && StartsWithRun(s[i..j][at..], k);
    assert s[i..j][at..][..k] == s[i + at..][..k];
    assert StartsWithRun(s[i + at..], k);
  }

  lemma {:induction false} TrimLeftIsASlice(s: string, cs: set<char>) returns (i: nat)
    ensures i <= |s| && TrimLeft(s, cs) == s[i..]
    ensures i < |s| ==> s[i] !in cs
  {
    if s != "" && s[0] in cs {
      i := TrimLeftIsASlice(s[1..], cs);
      i := i + 1;
    } else {
      i := 0;
    }
  }

  lemma {:induction false} TrimRightIsASlice(s: string, cs: set<char>) returns (j: nat)
    ensures j <= |s| && TrimRight(s, cs) == s[..j]
    ensures j > 0 ==> s[j - 1] !in cs
  {
    j := |s|;
    if s != "" && s[|s| - 1] in cs {
      j := TrimRightIsASlice(s[..|s| - 1], cs);
      assert s[..|s| - 1][..j] == s[..j];
    }
  }

  lemma {:induction false} CapKeepsAllowed(p: Rules, s: string, n: nat, r: nat)
    requires forall i :: 0 <= i < |s| ==> Allowed(p, s[i])
    ensures forall i :: 0 <= i < |CapFrom(s, n, r)| ==> Allowed(p, CapFrom(s, n, r)[i])
  {
    if s != "" {
      CapKeepsAllowed(p, s[1..], n, if s[0] != '-' then 0 else if r < n then r + 1 else r);
    }
  }

  lemma TrimmedIsClean(p: Rules, s: string)
    requires (forall i :: 0 <= i < |s| ==> Allowed(p, s[i])) && !HasRun(s, p.runs + 1)
    ensures var t := TrimRight(TrimLeft(s, p.trim), p.trim); |t| <= |s| && (t == "" || Clean(p, t))
  {
    var i := TrimLeftIsASlice(s, p.trim);
    var j := TrimRightIsASlice(s[i..], p.trim);
    SliceOfSlice(s, i, j);
    if j > 0 {
      SliceIsClean(p, s, i, i + j);
    }
  }

  lemma SliceIsClean(p: Rules, s: string, i: nat, j: nat)
    requires (forall k :: 0 <= k < |s| ==> Allowed(p, s[k])) && !HasRun(s, p.runs + 1)
    requires i < j <= |s| && s[i] !in p.trim && s[j - 1] !in p.trim
    ensures Clean(p, s[i..j])
  {
    if HasRun(s[i..j], p.runs + 1) {
      RunsOfSlice(s, i, j, p.runs + 1);
    }
  }

  lemma SliceOfSlice(s: string, i: nat, j: nat)
    requires i + j <= |s|
    ensures s[i..][..j] == s[i..i + j]
  {
  }

  lemma CappedIsClean(p: Rules, s: string)
    requires forall i :: 0 <= i < |s| ==> Allowed(p, s[i])
    ensures var t := TrimRight(TrimLeft(CapRuns(s, p.runs), p.trim), p.trim);
            |t| <= |CapRuns(s, p.runs)| && (t == "" || Clean(p, t))
  {
    CapKeepsAllowed(p, s, p.runs, 0);
    CappedHasNoRun(s, p.runs, 0);
    assert Hyphens(0) + CapRuns(s, p.runs) == CapRuns(s, p.runs);
    TrimmedIsClean(p, CapRuns(s, p.runs));
  }

  /** Before the cut, the text is empty or clean. */
  lemma TextIsClean(p: Rules, lower: char -> string, name: string)
    ensures Text(p, lower, name) == "" || Clean(p, Text(p, lower, name))
  {
    CappedIsClean(p, Mapped(p, LowerAll(lower, name)));
  }

  lemma {:induction false} CapShortens(s: string, n: nat, r: nat)
    ensures |CapFrom(s, n, r)| <= |s|
  {
    if s != "" {
      CapShortens(s[1..], n, if s[0] != '-' then 0 else if r < n then r + 1 else r);
    }
  }

  lemma DefaultIsValid(p: Rules)
    requires Platform(p)
    ensures Valid(p, "site")
  {
    forall i | 0 <= i <= |"site"| ensures !StartsWithRun("site"[i..], p.runs + 1) {
      assert p.runs + 1 <= |"site"[i..]| ==> "site"[i..][..p.runs + 1][0] == "site"[i];
    }
  }

  /** Whatever the name, the result is non-empty, within the length, written in the platform's alphabet, free of
      long runs of hyphens and free of a leading separator.  It also ends well, and so is a valid name, exactly
      when the cut does not land just behind a separator. */
  lemma SanitizedNames(p: Rules, lower: char -> string, name: string)
    requires Platform(p)
    ensures var out := Name(p, lower, name);
            && out != "" && |out| <= p.length && !HasRun(out, p.runs + 1) && out[0] !in p.trim
            && forall i :: 0 <= i < |out| ==> Allowed(p, out[i])
    ensures var text := Text(p, lower, name);
            Valid(p, Name(p, lower, name)) <==> !(|text| > p.length && text[p.length - 1] in p.trim)
  {
    DefaultIsValid(p);
    TextIsClean(p, lower, name);
    var text := Text(p, lower, name);
    if |text| > p.length {
      assert text[..p.length] == text[0..p.length];
      if HasRun(text[0..p.length], p.runs + 1) {
        RunsOfSlice(text, 0, p.length, p.runs + 1);
      }
    }
  }

  lemma {:induction false} AllowedIsKept(p: Rules, lower: char -> string, s: string)
    requires LeavesAllowed(p, lower) && forall i :: 0 <= i < |s| ==> Allowed(p, s[i])
    ensures Mapped(p, LowerAll(lower, s)) == s
  {
    if s != "" {
      AllowedIsKept(p, lower, s[1..]);
      assert s == [s[0]] + s[1..];
      assert LowerAll(lower, s)[1..] == LowerAll(lower, s[1..]);
    }
  }

  /** A clean name comes back cut to length and otherwise untouched. */
  lemma CleanIsOnlyCut(p: Rules, lower: char -> string, name: string)
    requires LeavesAllowed(p, lower) && Clean(p, name)
    ensures Text(p, lower, name) == name
  {
    AllowedIsKept(p, lower, name);
    assert Hyphens(0) + name == name;
    CappedAlready(name, p.runs, 0);
  }

  lemma AllowedOnlyShrinks(p: Rules, lower: char -> string, name: string)
    requires LeavesAllowed(p, lower) && forall i :: 0 <= i < |name| ==> Allowed(p, name[i])
    ensures |Text(p, lower, name)| <= |name|
  {
    AllowedIsKept(p, lower, name);
    CappedIsClean(p, name);
    CapShortens(name, p.runs, 0);
  }

  /** The names returned unchanged are exactly the valid ones. */
  lemma ValidNamesAreTheFixedPoints(p: Rules, lower: char -> string, name: string)
    requires Platform(p) && LeavesAllowed(p, lower)
    ensures Name(p, lower, name) == name <==> Valid(p, name)
  {
    SanitizedNames(p, lower, name);
    if Valid(p, name) {
      CleanIsOnlyCut(p, lower, name);
    } else if Name(p, lower, name) == name {
      AllowedOnlyShrinks(p, lower, name);
    }
  }

  function Letters(k: nat): (r: string)
    ensures |r| == k && forall i :: 0 <= i < k ==> r[i] == 'a'
  {
    seq(k, _ => 'a')
  }

  /** So a name may end in a hyphen: one clean character too many is enough on Cloudflare. */
  lemma ACutNameCanEndInAHyphen(lower: char -> string)
    requires LeavesAllowed(CLOUDFLARE, lower)
    ensures var name := Letters(57) + "-b";
            Clean(CLOUDFLARE, name) && Name(CLOUDFLARE, lower, name) == Letters(57) + "-"
  {
    var name := Letters(57) + "-b";
    forall i | 0 <= i <= |name| ensures !StartsWithRun(name[i..], 2) {
      assert 2 <= |name[i..]| ==> name[i..][..2] == [name[i], name[i + 1]];
    }
    CleanIsOnlyCut(CLOUDFLARE, lower, name);
  }

  predicate OnlyHyphens(s: string) {
    forall i :: 0 <= i < |s| ==> s[i] == '-'
  }

  lemma {:induction false} HyphensStayHyphens(s: string, n: nat, r: nat)
    requires OnlyHyphens(s)
    ensures OnlyHyphens(CapFrom(s, n, r))
  {
    if s != "" {
      HyphensStayHyphens(s[1..], n, if r < n then r + 1 else r);
    }
  }

  lemma {:induction false} HyphensAreTrimmed(s: string, cs: set<char>)
    requires OnlyHyphens(s) && '-' in cs
    ensures TrimLeft(s, cs) == ""
  {
    if s != "" {
      HyphensAreTrimmed(s[1..], cs);
    }
  }

  /** Nothing, or nothing but hyphens, is called a site. */
  lemma NothingIsASite(p: Rules, lower: char -> string, name: string)
    requires Platform(p) && LeavesAllowed(p, lower) && OnlyHyphens(name)
    ensures Name(p, lower, name) == "site"
  {
    AllowedIsKept(p, lower, name);
    HyphensStayHyphens(name, p.runs, 0);
    HyphensAreTrimmed(CapRuns(name, p.runs), p.trim);
  }

  /** What becomes of a character: what its lower case is, if the platform allows that, and else a hyphen. */
  lemma CharactersAreReplaced(p: Rules, lower: char -> string, head: string, c: char, low: char, tail: string)
    requires Platform(p) && LeavesAllowed(p, lower) && lower(c) == [low]
    requires head != "" && tail != "" && |head| + 1 + |tail| <= p.length
    requires forall i :: 0 <= i < |head| ==> Alphanumeric(head[i])
    requires forall i :: 0 <= i < |tail| ==> Alphanumeric(tail[i])
    ensures Name(p, lower, head + [c] + tail)
            == head + [if Alphanumeric(low) || (low in {'.', '_'} && p == VERCEL) then low else '-'] + tail
  {
    var mid := if Alphanumeric(low) || (low in {'.', '_'} && p == VERCEL) then low else '-';
    ThreePartsInLower(p, lower, head, c, low, tail);
    MappedOfThree(p, head, low, tail);
    ThreePartsAreClean(p, head, mid, tail);
    MappedToAName(p, lower, head + [c] + tail, head + [mid] + tail);
  }

  lemma MappedToAName(p: Rules, lower: char -> string, raw: string, name: string)
    requires LeavesAllowed(p, lower) && Clean(p, name) && |name| <= p.length
    requires Mapped(p, LowerAll(lower, raw)) == name
    ensures Name(p, lower, raw) == name
  {
    CleanIsOnlyCut(p, lower, name);
    AllowedIsKept(p, lower, name);
  }

  lemma ThreePartsInLower(p: Rules, lower: char -> string, head: string, c: char, low: char, tail: string)
    requires LeavesAllowed(p, lower) && lower(c) == [low]
    requires forall i :: 0 <= i < |head| ==> Alphanumeric(head[i])
    requires forall i :: 0 <= i < |tail| ==> Alphanumeric(tail[i])
    ensures LowerAll(lower, head + [c] + tail) == head + [low] + tail
  {
    AlphanumericsStay(p, lower, head);
    AlphanumericsStay(p, lower, tail);
    LowerOfThree(lower, head, c, tail);
  }

  lemma {:induction false} AlphanumericsStay(p: Rules, lower: char -> string, s: string)
    requires LeavesAllowed(p, lower) && forall i :: 0 <= i < |s| ==> Alphanumeric(s[i])
    ensures LowerAll(lower, s) == s
  {
    if s != "" {
      AlphanumericsStay(p, lower, s[1..]);
      assert Allowed(p, s[0]) && s == [s[0]] + s[1..];
    }
  }

  lemma {:induction false} LowerOfTwo(lower: char -> string, a: string, b: string)
    ensures LowerAll(lower, a + b) == LowerAll(lower, a) + LowerAll(lower, b)
  {
    if a == "" {
      NothingMore(b);
      NothingMore(LowerAll(lower, b));
    } else {
      assert (a + b)[1..] == a[1..] + b;
      LowerOfTwo(lower, a[1..], b);
      Regroup(lower(a[0]), LowerAll(lower, a[1..]), LowerAll(lower, b));
    }
  }

  lemma LowerOfThree(lower: char -> string, head: string, c: char, tail: string)
    ensures LowerAll(lower, head + [c] + tail) == LowerAll(lower, head) + lower(c) + LowerAll(lower, tail)
  {
    LowerOfTwo(lower, head + [c], tail);
    LowerOfTwo(lower, head, [c]);
    LowerOfOne(lower, c);
  }

  lemma LowerOfOne(lower: char -> string, c: char)
    ensures LowerAll(lower, [c]) == lower(c)
  {
    assert [c][1..] == "";
    NothingMore(lower(c));
  }

  lemma MappedOfTwo(p: Rules, a: string, b: string)
    ensures Mapped(p, a + b) == Mapped(p, a) + Mapped(p, b)
  {
  }

  lemma AlphanumericsAreMapped(p: Rules, s: string)
    requires forall i :: 0 <= i < |s| ==> Alphanumeric(s[i])
    ensures Mapped(p, s) == s
  {
  }

  lemma MappedOfThree(p: Rules, head: string, low: char, tail: string)
    requires Platform(p)
    requires forall i :: 0 <= i < |head| ==> Alphanumeric(head[i])
    requires forall i :: 0 <= i < |tail| ==> Alphanumeric(tail[i])
    ensures Mapped(p, head + [low] + tail)
            == head + [if Alphanumeric(low) || (low in {'.', '_'} && p == VERCEL) then low else '-'] + tail
  {
    MappedOfTwo(p, head + [low], tail);
    MappedOfTwo(p, head, [low]);
    AlphanumericsAreMapped(p, head);
    AlphanumericsAreMapped(p, tail);
    OneMapped(p, low);
  }

  lemma OneMapped(p: Rules, low: char)
    requires Platform(p)
    ensures Mapped(p, [low]) == [if Alphanumeric(low) || (low in {'.', '_'} && p == VERCEL) then low else '-']
  {
    assert Mapped(p, [low]) == [Replaced(p, low)];
  }

  lemma ThreePartsAreClean(p: Rules, head: string, mid: char, tail: string)
    requires Platform(p) && head != "" && tail != "" && Allowed(p, mid)
    requires forall i :: 0 <= i < |head| ==> Alphanumeric(head[i])
    requires forall i :: 0 <= i < |tail| ==> Alphanumeric(tail[i])
    ensures Clean(p, head + [mid] + tail)
  {
    var s := head + [mid] + tail;
    forall i | 0 <= i <= |s| ensures !StartsWithRun(s[i..], p.runs + 1) {
      assert p.runs + 1 <= |s[i..]| ==> s[i..][..p.runs + 1][0] == s[i] && s[i..][..p.runs + 1][1] == s[i + 1];
    }
  }
}
