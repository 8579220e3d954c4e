/** Small shared datatypes. */
module Basics {

  type Byte = b: int | 0 <= b < 256

  type Bytes = seq<bv8>

  datatype Option<+T> = None | Some(value: T)

  /** The outcome of an operation that either yields a value or is refused. */
  datatype Result<+T, +E> = Ok(value: T) | Err(error: E)

  /** The value bound to `k`, if any. */
  function Lookup<K, V>(m: map<K, V>, k: K): Option<V> {
    if k in m then Some(m[k]) else None
  }

  function OrElse<T>(o: Option<T>, default: T): T {
    match o
    case Some(v) => v
    case None => default
  }

  function Min(a: nat, b: nat): nat {
    if a < b then a else b
  }

  predicate IsDigit(c: char) {
    '0' <= c <= '9'
  }

  function Digit(n: int): char
    requires 0 <= n <= 9
  {
    '0' + n as char
  }

  /** The parts one after another. */
  function Flat<T>(parts: seq<seq<T>>): seq<T> {
    if parts == [] then [] else Flat(parts[..|parts| - 1]) + parts[|parts| - 1]
  }

  lemma FlatSnoc<T>(parts: seq<seq<T>>, part: seq<T>)
    ensures Flat(parts + [part]) == Flat(parts) + part
  {
    assert (parts + [part])[..|parts|] == parts;
  }

  /** An element of the whole is an element of some part, and the other way round. */
  lemma {:induction false} InFlat<T>(parts: seq<seq<T>>, k: nat, i: nat) returns (at: nat)
    requires k < |parts| && i < |parts[k]|
    ensures at < |Flat(parts)| && Flat(parts)[at] == parts[k][i]
  {
    var before := parts[..|parts| - 1];
    if k == |parts| - 1 {
      at := |Flat(before)| + i;
    } else {
      at := InFlat(before, k, i);
    }
  }

  lemma {:induction false} OfFlat<T>(parts: seq<seq<T>>, at: nat) returns (k: nat, i: nat)
    requires at < |Flat(parts)|
    ensures k < |parts| && i < |parts[k]| && Flat(parts)[at] == parts[k][i]
  {
    var before := parts[..|parts| - 1];
    if at < |Flat(before)| {
      k, i := OfFlat(before, at);
    } else {
      k, i := |parts| - 1, at - |Flat(before)|;
    }
  }

  lemma NothingMore<T>(s: seq<T>)
    ensures s + [] == s && [] + s == s
  {
  }

  lemma SplitFirst<T>(s: seq<T>)
    requires s != []
    ensures s == [s[0]] + s[1..]
  {
  }

  lemma SplitLast<T>(s: seq<T>)
    requires s != []
    ensures s == s[..|s| - 1] + [s[|s| - 1]]
  {
  }

  /** What no step changes stays as it was. */
  lemma {:induction false} Unchanging<T>(f: nat -> T, a: nat, b: nat)
    requires a <= b && forall j :: a <= j < b ==> f(j + 1) == f(j)
    ensures f(b) == f(a)
  {
    if a < b {
      Unchanging(f, a, b - 1);
      assert f(b - 1 + 1) == f(b - 1);
    }
  }

  lemma PrefixAndRest<T>(a: seq<T>, s: seq<T>)
    requires a <= s
    ensures s == a + s[|a|..]
  {
  }

  lemma NextOfPrefix<T>(a: seq<T>, x: T, s: seq<T>)
    requires a + [x] <= s
    ensures |a| < |s| && s[|a|] == x && s[..|a|] == a
  {
    assert (a + [x])[|a|] == x;
  }

  lemma PrefixSnoc<T>(s: seq<T>, i: nat)
    requires i < |s|
    ensures s[..i + 1] == s[..i] + [s[i]]
  {
  }

  lemma PrefixOfPrefix<T>(s: seq<T>, n: nat, i: nat)
    requires i <= n <= |s|
    ensures s[..n][..i] == s[..i]
  {
  }

  lemma Regroup<T>(a: seq<T>, b: seq<T>, c: seq<T>)
    ensures a + (b + c) == a + b + c && [] + b == b
  {
  }

  lemma SameSums<T>(a: seq<T>, b: seq<T>, c: seq<T>, d: seq<T>)
    requires |a| == |b|
    ensures a + c == b + d <==> a == b && c == d
  {
    if a + c == b + d {
      assert a == (a + c)[..|a|] && b == (b + d)[..|b|];
      assert c == (a + c)[|a|..] && d == (b + d)[|b|..];
    }
  }
}
