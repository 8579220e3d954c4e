/** The ids the transcript adapters give their events: a prefix, a mark and a running number. */
module EventIds {
  import opened Basics

  function Decimal(n: nat): (s: string)
    ensures s != "" && forall i :: 0 <= i < |s| ==> IsDigit(s[i])
  {
    if n < 10 then [Digit(n)] else Decimal(n / 10) + [Digit(n % 10)]
  }

  /** The number some decimal digits stand for. */
  function Value(digits: string): int {
    if digits == "" then 0 else 10 * Value(digits[..|digits| - 1]) + (digits[|digits| - 1] as int - '0' as int)
  }

  /** A number is written in decimal, without leading zeros. */
  lemma {:induction false} DecimalsReadBack(n: nat)
    ensures Value(Decimal(n)) == n && (n > 0 ==> Decimal(n)[0] != '0')
  {
    if n < 10 {
      assert [Digit(n)][..0] == "";
    } else {
      DecimalsReadBack(n / 10);
      var s := Decimal(n);
      assert s[..|s| - 1] == Decimal(n / 10) && s[0] == Decimal(n / 10)[0];
    }
  }

  function Numbered(prefix: string, n: nat): string {
    prefix + "#" + Decimal(n)
  }

  lemma {:induction false} DecimalIsInjective(m: nat, n: nat)
    requires Decimal(m) == Decimal(n)
    ensures m == n
  {
    if m < 10 && n < 10 {
      assert Decimal(m)[0] == Decimal(n)[0];
    } else {
      assert |Decimal(m / 10)| > 0 && |Decimal(n / 10)| > 0;
      assert m >= 10 && n >= 10;
      var a, b := Decimal(m / 10), Decimal(n / 10);
      assert a == Decimal(m)[..|a|] && b == Decimal(n)[..|b|];
      assert Decimal(m)[|a|] == Digit(m % 10) && Decimal(n)[|b|] == Digit(n % 10);
      DecimalIsInjective(m / 10, n / 10);
    }
  }

  lemma LastMark(a: string, m: nat, mark: char)
    requires !IsDigit(mark)
    ensures var s := a + [mark] + Decimal(m);
            s[|a|] == mark && forall i :: |a| < i < |s| ==> s[i] != mark
  {
    var s := a + [mark] + Decimal(m);
    forall i | |a| < i < |s| ensures s[i] != mark {
      assert s[i] == Decimal(m)[i - |a| - 1];
    }
  }

  /** A text that ends in a mark and digits is read back in one way only. */
  lemma MarkedNumber(a: string, m: nat, b: string, n: nat, mark: char)
    requires !IsDigit(mark) && a + [mark] + Decimal(m) == b + [mark] + Decimal(n)
    ensures a == b && m == n
  {
    var s, t := a + [mark] + Decimal(m), b + [mark] + Decimal(n);
    LastMark(a, m, mark);
    LastMark(b, n, mark);
    assert |a| == |b|;
    assert a == s[..|a|] && b == t[..|b|];
    assert Decimal(m) == s[|a| + 1..] && Decimal(n) == t[|b| + 1..];
    DecimalIsInjective(m, n);
  }

  /** No two events share an id, within a source or across sources. */
  lemma IdsAreDistinct(a: string, m: nat, b: string, n: nat)
    ensures Numbered(a, m) == Numbered(b, n) <==> a == b && m == n
  {
    if Numbered(a, m) == Numbered(b, n) {
      MarkedNumber(a, m, b, n, '#');
    }
  }
}
