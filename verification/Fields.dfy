/** The field cap of the transcript adapters (`cap` in crates/adapter-codex/src/lib.rs, the same in
    crates/adapter-continue/src/lib.rs): a text is cut to a number of bytes, never inside a character. */
module Fields {
  import opened Basics

  const MAX_FIELD: nat := 8192

  /** A character, by its Unicode code point. */
  type Scalar = c: int | 0 <= c < 0xD800 || 0xE000 <= c < 0x110000

  /** The UTF-8 form of one character (section 3 of RFC 3629). */
  function EncodeChar(c: Scalar): (r: seq<Byte>)
    ensures |r| > 0 && !Continuation(r[0]) && forall i :: 1 <= i < |r| ==> Continuation(r[i])
  {
    if c < 0x80 then [c]
    else if c < 0x800 then [0xC0 + c / 0x40, 0x80 + c % 0x40]
    else if c < 0x10000 then [0xE0 + c / 0x1000, 0x80 + c / 0x40 % 0x40, 0x80 + c % 0x40]
    else [0xF0 + c / 0x40000, 0x80 + c / 0x1000 % 0x40, 0x80 + c / 0x40 % 0x40, 0x80 + c % 0x40]
  }

  /** What a byte carries besides its mark. */
  function Bits(b: Byte, mark: int): (n: int)
    ensures n == b - mark
  {
    var bits: int := b;
    bits - mark
  }

  /** A character is read back from the bits its bytes carry. */
  lemma CharsReadBack(c: Scalar)
    ensures var e := EncodeChar(c);
            if c < 0x80 then e == [c]
            else if c < 0x800 then |e| == 2 && c == 0x40 * Bits(e[0], 0xC0) + Bits(e[1], 0x80)
            else if c < 0x10000 then
              |e| == 3 && c == 0x1000 * Bits(e[0], 0xE0) + 0x40 * Bits(e[1], 0x80) + Bits(e[2], 0x80)
            else
              && |e| == 4
              && c == 0x40000 * Bits(e[0], 0xF0) + 0x1000 * Bits(e[1], 0x80) + 0x40 * Bits(e[2], 0x80)
                      + Bits(e[3], 0x80)
  {
    assert c == 0x40 * (c / 0x40) + c % 0x40;
    assert c / 0x40 == 0x40 * (c / 0x1000) + c / 0x40 % 0x40;
    assert c / 0x1000 == 0x40 * (c / 0x40000) + c / 0x1000 % 0x40;
  }

  predicate Continuation(b: Byte) {
    0x80 <= b < 0xC0
  }

  function Utf8(cs: seq<Scalar>): seq<Byte> {
    if cs == [] then [] else EncodeChar(cs[0]) + Utf8(cs[1..])
  }

  predicate Boundary(s: seq<Byte>, i: nat) {
    i == 0 || i == |s| || (i < |s| && !Continuation(s[i]))
  }

  /** A character begins where the ones before it end. */
  lemma {:induction false} CharsBeginAtBoundaries(cs: seq<Scalar>, k: nat)
    requires k <= |cs|
    ensures Utf8(cs[..k]) <= Utf8(cs) && Boundary(Utf8(cs), |Utf8(cs[..k])|)
    ensures k < |cs| ==> |Utf8(cs[..k])| < |Utf8(cs[..k + 1])|
  {
    if k == 0 {
      assert cs[..0] == [];
      if cs != [] {
        assert cs[..1][1..] == [] && cs[..1][0] == cs[0];
      }
    } else {
      CharsBeginAtBoundaries(cs[1..], k - 1);
      assert cs[..k][1..] == cs[1..][..k - 1] && cs[..k][0] == cs[0];
      if k < |cs| {
        assert cs[..k + 1][1..] == cs[1..][..k] && cs[..k + 1][0] == cs[0];
      }
      var head, rest, at := EncodeChar(cs[0]), Utf8(cs[1..]), |Utf8(cs[1..][..k - 1])|;
      assert at < |rest| ==> (head + rest)[|head| + at] == rest[at];
      if at == 0 && rest != [] {
        assert !Continuation(rest[0]);
      }
    }
  }

  /** And nothing else is a boundary. */
  lemma {:induction false} BoundariesBeginChars(cs: seq<Scalar>, i: nat) returns (k: nat)
    requires i <= |Utf8(cs)| && Boundary(Utf8(cs), i)
    ensures k <= |cs| && |Utf8(cs[..k])| == i
  {
    if i == 0 {
      k := 0;
    } else {
      var head, rest := EncodeChar(cs[0]), Utf8(cs[1..]);
      assert |head| <= i < |head + rest| ==> (head + rest)[i] == rest[i - |head|];
      k := BoundariesBeginChars(cs[1..], i - |head|);
      k := k + 1;
      assert cs[..k][1..] == cs[1..][..k - 1] && cs[..k][0] == cs[0];
    }
  }

  /** The cap keeps the first `k` characters whole: as many as fit, and no more. */
  method Cap(s: seq<Byte>, ghost cs: seq<Scalar>) returns (out: seq<Byte>, ghost k: nat)
    requires s == Utf8(cs)
    ensures k <= |cs| && out == Utf8(cs[..k]) && |out| <= 8192
    ensures k < |cs| ==> |Utf8(cs[..k + 1])| > 8192
  {
    if |s| <= MAX_FIELD {
      assert cs[..|cs|] == cs;
      return s, |cs|;
    }
    var end: nat := MAX_FIELD;
    while end > 0 && !Boundary(s, end)
      invariant end <= MAX_FIELD
      invariant forall i: nat :: end < i <= MAX_FIELD ==> !Boundary(s, i)
    {
      end := end - 1;
    }
    k := BoundariesBeginChars(cs, end);
    CharsBeginAtBoundaries(cs, k);
    out := s[..end];
    if k < |cs| {
      CharsBeginAtBoundaries(cs, k + 1);
    }
  }
}
