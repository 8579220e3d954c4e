/** The lexicographic order on strings, and label-sorted listings of a map, as the library's sorted maps
    and `sort` produce them. */
module Ordering {

  predicate Less(a: string, b: string) {
    b != [] && (a == [] || a[0] < b[0] || (a[0] == b[0] && Less(a[1..], b[1..])))
  }

  lemma {:induction false} LessTransitive(a: string, b: string, c: string)
    requires Less(a, b) && Less(b, c)
    ensures Less(a, c)
  {
    if a != [] && a[0] == b[0] == c[0] {
      LessTransitive(a[1..], b[1..], c[1..]);
    }
  }

  lemma {:induction false} LessIsStrict(a: string, b: string)
    ensures !(Less(a, b) && Less(b, a))
    ensures !Less(a, a)
  {
    if a != [] {
      LessIsStrict(a[1..], a[1..]);
      if b != [] && a[0] == b[0] {
        LessIsStrict(a[1..], b[1..]);
      }
    }
  }

  lemma {:induction false} LessIsTotal(a: string, b: string)
    requires a != b
    ensures Less(a, b) || Less(b, a)
  {
    if a != [] && b != [] && a[0] == b[0] {
      assert a == [a[0]] + a[1..] && b == [b[0]] + b[1..];
      LessIsTotal(a[1..], b[1..]);
    }
  }

  // ---- listings --------------------------------------------------------------------------------

  datatype Entry<+T> = Entry(name: string, target: T)

  /** Strictly ascending by name, hence without duplicates. */
  predicate Ascending<T>(s: seq<Entry<T>>) {
    forall i, j :: 0 <= i < j < |s| ==> Less(s[i].name, s[j].name)
  }

  /** `s` lists the bindings of `m`, all of them and nothing else. */
  ghost predicate Lists<T(!new)>(s: seq<Entry<T>>, m: map<string, T>) {
    forall e :: e in s <==> e.name in m && m[e.name] == e.target
  }

  function Insert<T>(s: seq<Entry<T>>, e: Entry<T>): seq<Entry<T>> {
    if s == [] then [e]
    else if Less(e.name, s[0].name) then [e] + s
    else [s[0]] + Insert(s[1..], e)
  }

  lemma {:induction false} InsertMembers<T(!new)>(s: seq<Entry<T>>, e: Entry<T>)
    ensures forall x :: x in Insert(s, e) <==> x in s || x == e
  {
    if s != [] && !Less(e.name, s[0].name) {
      InsertMembers(s[1..], e);
      assert s == [s[0]] + s[1..];
    }
  }

  lemma {:induction false} InsertKeepsOrder<T(!new)>(s: seq<Entry<T>>, e: Entry<T>)
    requires Ascending(s) && forall x :: x in s ==> x.name != e.name
    ensures Ascending(Insert(s, e))
  {
    if s == [] {
    } else if Less(e.name, s[0].name) {
      forall x | x in s ensures Less(e.name, x.name) {
        if x != s[0] { LessTransitive(e.name, s[0].name, x.name); }
      }
    } else {
      var rest := s[1..];
      assert s == [s[0]] + rest;
      InsertKeepsOrder(rest, e);
      InsertMembers(rest, e);
      LessIsTotal(e.name, s[0].name);
      var t := Insert(rest, e);
      forall x | x in t ensures Less(s[0].name, x.name) {
        if x != e {
          var i :| 0 <= i < |rest| && rest[i] == x;
          assert rest[i] == s[i + 1];
        }
      }
    }
  }

  lemma SomeMember<T(!new)>(t: seq<T>)
    ensures t != [] ==> exists e :: e in t
  {
    if t != [] {
      assert t[0] in t;
    }
  }

  /** An ascending listing of a map is unique, so sorting does not depend on the order of collection. */
  lemma {:induction false} ListingIsUnique<T(!new)>(s: seq<Entry<T>>, t: seq<Entry<T>>)
    requires Ascending(s) && Ascending(t) && forall e :: e in s <==> e in t
    ensures s == t
  {
    SomeMember(t);
    if s != [] {
      assert s[0] in t;
      assert t[0] in s;
      LessIsStrict(s[0].name, t[0].name);
      assert s[0] == t[0];
      TailMembers(s);
      TailMembers(t);
      ListingIsUnique(s[1..], t[1..]);
      assert s == [s[0]] + s[1..] && t == [t[0]] + t[1..];
    }
  }

  lemma TailMembers<T(!new)>(s: seq<Entry<T>>)
    requires s != [] && Ascending(s)
    ensures forall e :: e in s[1..] <==> e in s && e != s[0]
  {
    LessIsStrict(s[0].name, s[0].name);
    assert s == [s[0]] + s[1..];
  }

  /** The library's sort, on a listing with distinct names. */
  function Sort<T>(s: seq<Entry<T>>): seq<Entry<T>> {
    if s == [] then [] else Insert(Sort(s[1..]), s[0])
  }

  predicate Distinct<T>(s: seq<Entry<T>>) {
    forall i, j :: 0 <= i < j < |s| ==> s[i].name != s[j].name
  }

  lemma {:induction false} SortSorts<T(!new)>(s: seq<Entry<T>>)
    requires Distinct(s)
    ensures Ascending(Sort(s)) && forall e :: e in Sort(s) <==> e in s
  {
    if s != [] {
      assert s == [s[0]] + s[1..];
      SortSorts(s[1..]);
      InsertMembers(Sort(s[1..]), s[0]);
      var t := Sort(s[1..]);
      forall x | x in t ensures x.name != s[0].name {
        var i :| 0 <= i < |s[1..]| && s[1..][i] == x;
        assert s[i + 1] == x;
      }
      InsertKeepsOrder(Sort(s[1..]), s[0]);
    }
  }

  /** The ascending listing of a map. */
  ghost function Listing<T>(m: map<string, T>): seq<Entry<T>> {
    if m == map[] then [] else
      var k :| k in m;
      Insert(Listing(m - {k}), Entry(k, m[k]))
  }

  lemma {:induction false} ListingLists<T(!new)>(m: map<string, T>)
    ensures Ascending(Listing(m)) && Lists(Listing(m), m)
  {
    if m != map[] {
      var k :| k in m && Listing(m) == Insert(Listing(m - {k}), Entry(k, m[k]));
      var rest := m - {k};
      ListingLists(rest);
      InsertMembers(Listing(rest), Entry(k, m[k]));
      InsertKeepsOrder(Listing(rest), Entry(k, m[k]));
    }
  }

  lemma SortedListing<T(!new)>(s: seq<Entry<T>>, m: map<string, T>)
    requires Distinct(s) && Lists(s, m)
    ensures Sort(s) == Listing(m)
  {
    SortSorts(s);
    ListingLists(m);
    ListingIsUnique(Sort(s), Listing(m));
  }

  // ---- grouping by a prefix of the name ----------------------------------------------------------

  function Prefix(x: string, n: nat): string {
    if |x| >= n then x[..n] else x
  }

  function Prefixes<T>(m: map<string, T>, n: nat): set<string> {
    set x | x in m :: Prefix(x, n)
  }

  function Under<T>(m: map<string, T>, key: string, n: nat): map<string, T> {
    map x | x in m && Prefix(x, n) == key :: m[x]
  }

  /** `g` lists each binding of `m`, in some order, under its prefix of length `n` and nowhere else. */
  ghost predicate Grouped<T(!new)>(g: map<string, seq<Entry<T>>>, m: map<string, T>, n: nat) {
    && g.Keys == Prefixes(m, n)
    && forall k :: k in g ==> Distinct(g[k]) && Lists(g[k], Under(m, k, n))
  }

  function PushUnder<T>(g: map<string, seq<Entry<T>>>, key: string, e: Entry<T>): map<string, seq<Entry<T>>> {
    g[key := (if key in g then g[key] else []) + [e]]
  }

  lemma PushKeepsGroups<T(!new)>(g: map<string, seq<Entry<T>>>, m: map<string, T>, n: nat, x: string, v: T)
    requires Grouped(g, m, n) && x !in m
    ensures Grouped(PushUnder(g, Prefix(x, n), Entry(x, v)), m[x := v], n)
  {
    var g', m' := PushUnder(g, Prefix(x, n), Entry(x, v)), m[x := v];
    OnePrefixMore(m, n, x, v);
    forall k | k in g' ensures Distinct(g'[k]) && Lists(g'[k], Under(m', k, n)) {
      UnderOneMore(m, k, n, x, v);
      if k == Prefix(x, n) && k !in g {
        NothingUnder(m, k, n);
      }
    }
  }

  lemma OnePrefixMore<T>(m: map<string, T>, n: nat, x: string, v: T)
    ensures Prefixes(m[x := v], n) == Prefixes(m, n) + {Prefix(x, n)}
  {
    assert x in m[x := v];
    forall y | y in m ensures Prefix(y, n) in Prefixes(m[x := v], n) {
      assert y in m[x := v];
    }
  }

  lemma UnderOneMore<T>(m: map<string, T>, k: string, n: nat, x: string, v: T)
    requires x !in m
    ensures Under(m[x := v], k, n) == if Prefix(x, n) == k then Under(m, k, n)[x := v] else Under(m, k, n)
  {
  }

  lemma NothingUnder<T>(m: map<string, T>, k: string, n: nat)
    requires k !in Prefixes(m, n)
    ensures Under(m, k, n) == map[]
  {
  }
}
