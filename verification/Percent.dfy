/** Percent-coding of query values: `urlencode` (crates/core/src/deploy.rs) and `urldecode`
    (crates/cli/src/main.rs), over the bytes of a string.  The unreserved characters and the triplets are those of
    sections 2.1 and 2.3 of RFC 3986. */
module Percent {
  import opened Basics

  const PERCENT: Byte := '%' as int
  const PLUS: Byte := '+' as int
  const SPACE: Byte := ' ' as int

  predicate Within(b: Byte, lo: char, hi: char) {
    lo as int <= b <= hi as int
  }

  predicate Unreserved(b: Byte) {
    Within(b, 'A', 'Z') || Within(b, 'a', 'z') || Within(b, '0', '9') ||
    b == '-' as int || b == '.' as int || b == '_' as int || b == '~' as int
  }

  function HexDigit(n: int): (b: Byte)
    requires 0 <= n < 16
  {
    if n < 10 then '0' as int + n else 'A' as int + n - 10
  }

  /** The value of a hexadecimal digit, in either case. */
  function HexValue(b: Byte): Option<int> {
    if Within(b, '0', '9') then Some(b - '0' as int)
    else if Within(b, 'A', 'F') then Some(b - 'A' as int + 10)
    else if Within(b, 'a', 'f') then Some(b - 'a' as int + 10)
    else None
  }

  function EncodeByte(b: Byte): seq<Byte> {
    if Unreserved(b) then [b] else [PERCENT, HexDigit(b / 16), HexDigit(b % 16)]
  }

  function Encode(s: seq<Byte>): seq<Byte> {
    if s == [] then [] else EncodeByte(s[0]) + Encode(s[1..])
  }

  /** The byte a triplet at the head of `s` stands for. */
  function Triplet(s: seq<Byte>): (r: Option<Byte>)
    ensures r.Some? ==> |s| >= 3 && s[0] == PERCENT
  {
    if |s| >= 3 && s[0] == PERCENT && HexValue(s[1]).Some? && HexValue(s[2]).Some?
    then Some(HexValue(s[1]).value * 16 + HexValue(s[2]).value)
    else None
  }

  function Decode(s: seq<Byte>): seq<Byte> {
    if s == [] then []
    else match Triplet(s)
      case Some(b) => [b] + Decode(s[3..])
      case None => [if s[0] == PLUS then SPACE else s[0]] + Decode(s[1..])
  }

  /** Nothing but unreserved characters and well-formed triplets, these only where they are needed and in capitals. */
  predicate Canonical(s: seq<Byte>) {
    s == [] ||
    if Unreserved(s[0]) then Canonical(s[1..])
    else
      && Triplet(s).Some? && !Unreserved(Triplet(s).value)
      && s[..3] == EncodeByte(Triplet(s).value) && Canonical(s[3..])
  }

  /** The unreserved characters, in ASCII: letters, digits and four marks. */
  lemma UnreservedInFull(b: Byte)
    ensures Encode([b]) == [b] <==>
            65 <= b <= 90 || 97 <= b <= 122 || 48 <= b <= 57 || b == 45 || b == 46 || b == 95 || b == 126
  {
    assert Encode([b]) == EncodeByte(b) + Encode([]) == EncodeByte(b);
  }

  lemma HexRoundTrip(n: int)
    requires 0 <= n < 16
    ensures HexValue(HexDigit(n)) == Some(n)
  {
  }

  lemma TripletOfByte(b: Byte, rest: seq<Byte>)
    requires !Unreserved(b)
    ensures Triplet(EncodeByte(b) + rest) == Some(b)
  {
    HexRoundTrip(b / 16);
    HexRoundTrip(b % 16);
  }

  /** Encoding produces the canonical form. */
  lemma {:induction false} EncodedIsCanonical(s: seq<Byte>)
    ensures Canonical(Encode(s))
  {
    if s != [] {
      var head, rest := EncodeByte(s[0]), Encode(s[1..]);
      EncodedIsCanonical(s[1..]);
      assert (head + rest)[|head|..] == rest && (head + rest)[..|head|] == head;
      if !Unreserved(s[0]) {
        TripletOfByte(s[0], rest);
      }
    }
  }

  /** Every byte string survives encoding and decoding. */
  lemma {:induction false} DecodeUndoesEncode(s: seq<Byte>)
    ensures Decode(Encode(s)) == s
  {
    if s != [] {
      var head, rest := EncodeByte(s[0]), Encode(s[1..]);
      DecodeUndoesEncode(s[1..]);
      assert (head + rest)[|head|..] == rest;
      if !Unreserved(s[0]) {
        TripletOfByte(s[0], rest);
      }
      assert s == [s[0]] + s[1..];
    }
  }

  lemma {:induction false} CanonicalIsEncoded(s: seq<Byte>)
    requires Canonical(s)
    ensures Encode(Decode(s)) == s
  {
    if s != [] {
      var k := if Unreserved(s[0]) then 1 else 3;
      CanonicalIsEncoded(s[k..]);
      assert Decode(s) == [Decode(s)[0]] + Decode(s[k..]);
      assert s[..k] + s[k..] == s;
    }
  }

  /** The canonical texts are exactly those the encoder produces, each from the one value it decodes to. */
  lemma EncodeUndoesDecode(s: seq<Byte>)
    ensures Encode(Decode(s)) == s <==> Canonical(s)
  {
    EncodedIsCanonical(Decode(s));
    if Canonical(s) {
      CanonicalIsEncoded(s);
    }
  }

  lemma {:induction false} EncodeAppend(s: seq<Byte>, b: Byte)
    ensures Encode(s + [b]) == Encode(s) + EncodeByte(b)
  {
    if s == [] {
      assert [] + [b] == [b] && Encode([b]) == EncodeByte(b) + Encode([]);
    } else {
      EncodeAppend(s[1..], b);
      assert (s + [b])[1..] == s[1..] + [b];
      assert EncodeByte(s[0]) + (Encode(s[1..]) + EncodeByte(b)) == EncodeByte(s[0]) + Encode(s[1..]) + EncodeByte(b);
    }
  }

  method UrlEncode(s: seq<Byte>) returns (out: seq<Byte>)
    ensures out == Encode(s)
  {
    out := [];
    for i := 0 to |s|
      invariant out == Encode(s[..i])
    {
      EncodeAppend(s[..i], s[i]);
      assert s[..i + 1] == s[..i] + [s[i]];
      if Unreserved(s[i]) {
        out := out + [s[i]];
      } else {
        out := out + [PERCENT, HexDigit(s[i] / 16), HexDigit(s[i] % 16)];
      }
    }
    assert s[..|s|] == s;
  }

  /** The value of a hexadecimal digit, upper or lower case. */
  predicate IsHex(b: Byte, value: int) {
    && 0 <= value < 16
    && (b == "0123456789ABCDEF"[value] as int || b == "0123456789abcdef"[value] as int)
  }

  /** How a byte may be spelled in a query: as itself, but for `%` and `+`; a space as `+`; any as a triplet with
      hexadecimal digits of either case. */
  predicate Spells(piece: seq<Byte>, b: Byte) {
    || (piece == [b] && b != '%' as int && b != '+' as int)
    || (piece == ['+' as int] && b == ' ' as int)
    || (|piece| == 3 && piece[0] == '%' as int && IsHex(piece[1], b / 16) && IsHex(piece[2], b % 16))
  }

  lemma HexIsRead(b: Byte, value: int)
    requires IsHex(b, value)
    ensures HexValue(b) == Some(value)
  {
    if value < 10 {
      assert "0123456789ABCDEF"[value] as int == 48 + value == "0123456789abcdef"[value] as int;
    } else {
      assert "0123456789ABCDEF"[value] as int == 55 + value && "0123456789abcdef"[value] as int == 87 + value;
    }
  }

  lemma SpelledIsRead(piece: seq<Byte>, b: Byte, rest: seq<Byte>)
    requires Spells(piece, b)
    ensures Decode(piece + rest) == [b] + Decode(rest)
  {
    var s := piece + rest;
    assert s[|piece|..] == rest;
    if |piece| == 3 {
      HexIsRead(piece[1], b / 16);
      HexIsRead(piece[2], b % 16);
      assert Triplet(s) == Some(b);
    } else {
      assert Triplet(s) == None;
    }
  }

  /** A text is decoded to the bytes it spells, however it spells them. */
  lemma {:induction false} SpellingsAreRead(pieces: seq<seq<Byte>>, value: seq<Byte>)
    requires |pieces| == |value| && forall i :: 0 <= i < |value| ==> Spells(pieces[i], value[i])
    ensures Decode(Joined(pieces)) == value
  {
    if pieces != [] {
      SpellingsAreRead(pieces[1..], value[1..]);
      SpelledIsRead(pieces[0], value[0], Joined(pieces[1..]));
      SplitFirst(value);
    }
  }

  function Joined(pieces: seq<seq<Byte>>): seq<Byte> {
    if pieces == [] then [] else pieces[0] + Joined(pieces[1..])
  }

  ghost predicate IsNoHex(b: Byte) {
    forall value :: !IsHex(b, value)
  }

  /** And a percent sign that two hexadecimal digits do not follow stands for itself. */
  lemma StrayPercentStays(rest: seq<Byte>)
    requires |rest| < 2 || IsNoHex(rest[0]) || IsNoHex(rest[1])
    ensures Decode(['%' as int] + rest) == ['%' as int] + Decode(rest)
  {
    var s := ['%' as int] + rest;
    assert s[1..] == rest;
    if |rest| >= 2 {
      NoHexIsUnread(rest[0]);
      NoHexIsUnread(rest[1]);
    }
  }

  lemma NoHexIsUnread(b: Byte)
    ensures IsNoHex(b) ==> HexValue(b).None?
  {
    if HexValue(b).Some? {
      ReadIsHex(b);
    }
  }

  lemma ReadIsHex(b: Byte)
    requires HexValue(b).Some?
    ensures IsHex(b, HexValue(b).value)
  {
    var v := HexValue(b).value;
    if v < 10 {
      assert "0123456789ABCDEF"[v] as int == 48 + v;
    } else {
      assert "0123456789ABCDEF"[v] as int == 55 + v && "0123456789abcdef"[v] as int == 87 + v;
    }
  }

  /** What decoding from position `i` yields next, and how far it moves on. */
  function Next(s: seq<Byte>, i: nat): (Byte, nat)
    requires i < |s|
  {
    match Triplet(s[i..])
    case Some(b) => (b, 3)
    case None => (if s[i] == PLUS then SPACE else s[i], 1)
  }

  lemma Consume(out: seq<Byte>, s: seq<Byte>, i: nat)
    requires i < |s|
    ensures var (b, k) := Next(s, i);
            i + k <= |s| && out + Decode(s[i..]) == out + [b] + Decode(s[i + k..])
  {
    var (b, k) := Next(s, i);
    assert s[i..][k..] == s[i + k..];
    Regroup(out, [b], Decode(s[i + k..]));
  }

  lemma TripletAt(s: seq<Byte>, i: nat)
    requires i < |s|
    ensures Triplet(s[i..]) ==
            if s[i] == PERCENT && i + 2 < |s| && HexValue(s[i + 1]).Some? && HexValue(s[i + 2]).Some?
            then Some(HexValue(s[i + 1]).value * 16 + HexValue(s[i + 2]).value) else None
  {
  }

  method UrlDecode(s: seq<Byte>) returns (out: seq<Byte>)
    ensures out == Decode(s)
  {
    out := [];
    var i := 0;
    NothingMore(Decode(s));
    while i < |s|
      invariant i <= |s| && out + Decode(s[i..]) == Decode(s)
    {
      TripletAt(s, i);
      Consume(out, s, i);
      if s[i] == PERCENT && i + 2 < |s| {
        var hi, lo := HexValue(s[i + 1]), HexValue(s[i + 2]);
        if hi.Some? && lo.Some? {
          out := out + [hi.value * 16 + lo.value];
          i := i + 3;
          continue;
        }
        out := out + [s[i]];
      } else if s[i] == PLUS {
        out := out + [SPACE];
      } else {
        out := out + [s[i]];
      }
      i := i + 1;
    }
    NothingMore(out);
  }
}
