/** The month and year manifests are a complete, idempotent and local index of the days. */
module CalendarTier {
  import opened Basics
  import opened Events
  import opened Ordering
  import opened Store

  lemma RebindNothingNew(s: Tier, ms: map<string, Cid>)
    requires SubMap(ms, s.manifests) && Targets(ms) <= s.nodes
    ensures BindManifests(s, ms) == s
  {
    assert s.manifests + ms == s.manifests;
  }

  /** The length of a label tells the months from the years. */
  lemma LabelLengths(s: Tier)
    ensures forall k :: k in MonthRoots(s) ==> |k| == MONTH
    ensures forall k :: k in YearRoots(s) ==> |k| == YEAR
  {
  }

  lemma RollUpHolds(s: Tier)
    ensures SubMap(MonthRoots(s), RollUp(s).manifests) && SubMap(YearRoots(s), RollUp(s).manifests)
    ensures Targets(MonthRoots(s)) + Targets(YearRoots(s)) <= RollUp(s).nodes
  {
    LabelLengths(s);
  }

  lemma TargetsOfSubMap(a: map<string, Cid>, b: map<string, Cid>)
    requires SubMap(a, b)
    ensures Targets(a) <= Targets(b)
  {
  }

  lemma SubMapTransitive(a: map<string, Cid>, b: map<string, Cid>, c: map<string, Cid>)
    requires SubMap(a, b) && SubMap(b, c)
    ensures SubMap(a, c)
  {
  }

  /** A second roll-up changes nothing, even one that is cut short anywhere. */
  lemma RollUpIsIdempotent(s: Tier, t: Tier, months: map<string, Cid>, years: map<string, Cid>)
    requires PartlyRolledUp(RollUp(s), t, months, years)
    ensures t == RollUp(s)
  {
    var r := RollUp(s);
    assert DayRoots(r) == DayRoots(s);
    RollUpHolds(s);
    TargetsOfSubMap(months, MonthRoots(s));
    TargetsOfSubMap(years, YearRoots(s));
    SubMapTransitive(months, MonthRoots(s), r.manifests);
    SubMapTransitive(years, YearRoots(s), r.manifests);
    RebindNothingNew(r, months);
    RebindNothingNew(r, years);
    PutNothingNew(r, t, Targets(MonthRoots(s)) + Targets(YearRoots(s)));
  }

  lemma PutNothingNew(s: Tier, t: Tier, cids: set<Cid>)
    requires AtMostOneMore(s, t, cids) && cids <= s.nodes
    ensures t == s
  {
    forall c | c in cids ensures Put(s, c) == s {
      assert s.nodes + {c} == s.nodes;
    }
  }

  /** The entries of the manifest bound to a label. */
  function Listed(cid: Cid): seq<Entry<Cid>> {
    match cid.node
    case MonthIndex(_, days) => days
    case YearIndex(_, months) => months
    case _ => []
  }

  /** A month's manifest is a month node of that label and a year's a year node, each stamped with its period. */
  lemma ManifestsAreOfTheirKind(s: Tier, period: string)
    ensures period in MonthRoots(s) ==>
              var c := MonthRoots(s)[period];
              c.createdAt == StartOf(period) && c.node.MonthIndex? && c.node.month == period
    ensures period in YearRoots(s) ==>
              var c := YearRoots(s)[period];
              c.createdAt == StartOf(period) && c.node.YearIndex? && c.node.year == period
  {
  }

  /** A filed event makes the day's name resolve to a day node of that date, stamped by the clock, that holds what the
      day held and the record under the event's key, and is stored. */
  lemma DaysAreIndexed(s: Tier, date: string, key: EventKey, record: Cid, clock: nat)
    ensures var t := RecordInDay(s, date, key, record, clock);
            && date in t.days
            && DayCid(date, t.days[date]) in t.nodes
            && DayCid(date, t.days[date])
               == Cid(At(clock), DayIndex(date, (if date in s.days then s.days[date].events else map[])[key := record]))
  {
  }

  lemma ManifestLists(roots: map<string, Cid>, n: nat, k: string)
    requires k in Manifests(roots, n)
    ensures Ascending(Listed(Manifests(roots, n)[k])) && Lists(Listed(Manifests(roots, n)[k]), Under(roots, k, n))
  {
    ListingLists(Under(roots, k, n));
  }

  /** After a roll-up, each label of a day of at least seven characters, and of a month, is listed with its
      root by the manifest bound to its own prefix and by no other manifest of that tier; every manifest is
      strictly ascending, so nothing is listed twice, and lists nothing else. */
  lemma RollUpIsComplete(s: Tier, date: string)
    requires date in s.days && |date| >= 7
    ensures var month, year, r := date[..7], date[..4], RollUp(s);
            && month in r.manifests && year in r.manifests
            && Entry(date, DayCid(date, s.days[date])) in Listed(r.manifests[month])
            && Entry(month, r.manifests[month]) in Listed(r.manifests[year])
    ensures forall m :: m in MonthRoots(s) ==>
              && Lookup(RollUp(s).manifests, m) == Some(MonthRoots(s)[m])
              && Ascending(Listed(MonthRoots(s)[m]))
              && Lists(Listed(MonthRoots(s)[m]), Under(DayRoots(s), m, MONTH))
    ensures forall y :: y in YearRoots(s) ==>
              && Lookup(RollUp(s).manifests, y) == Some(YearRoots(s)[y])
              && Ascending(Listed(YearRoots(s)[y]))
              && Lists(Listed(YearRoots(s)[y]), Under(MonthRoots(s), y, YEAR))
  {
    RollUpHolds(s);
    AllAreListings(DayRoots(s), MONTH);
    AllAreListings(MonthRoots(s), YEAR);
    DateIsListed(s, date);
  }

  lemma DateIsListed(s: Tier, date: string)
    requires date in s.days && |date| >= MONTH
    ensures var month, year := date[..MONTH], date[..YEAR];
            && month in MonthRoots(s) && year in YearRoots(s)
            && Entry(date, DayCid(date, s.days[date])) in Listed(MonthRoots(s)[month])
            && Entry(month, MonthRoots(s)[month]) in Listed(YearRoots(s)[year])
  {
    IsUnderItsPrefix(DayRoots(s), MONTH, date);
    ManifestLists(DayRoots(s), MONTH, date[..MONTH]);
    assert date[..MONTH][..YEAR] == date[..YEAR];
    IsUnderItsPrefix(MonthRoots(s), YEAR, date[..MONTH]);
    ManifestLists(MonthRoots(s), YEAR, date[..YEAR]);
  }

  lemma AllAreListings(roots: map<string, Cid>, n: nat)
    requires n == MONTH || n == YEAR
    ensures forall k :: k in Manifests(roots, n) ==>
              Ascending(Listed(Manifests(roots, n)[k])) && Lists(Listed(Manifests(roots, n)[k]), Under(roots, k, n))
  {
    forall k | k in Manifests(roots, n)
      ensures Ascending(Listed(Manifests(roots, n)[k])) && Lists(Listed(Manifests(roots, n)[k]), Under(roots, k, n))
    {
      ManifestLists(roots, n, k);
    }
  }

  lemma IsUnderItsPrefix(roots: map<string, Cid>, n: nat, x: string)
    requires x in roots && |x| >= n
    ensures x[..n] in Manifests(roots, n) && x in Under(roots, x[..n], n) && Under(roots, x[..n], n)[x] == roots[x]
  {
    assert Prefix(x, n) == x[..n];
  }

  /** A manifest depends only on the roots under its label. */
  lemma ManifestIsLocal(a: map<string, Cid>, b: map<string, Cid>, n: nat, k: string)
    requires forall x :: Prefix(x, n) == k ==> Lookup(a, x) == Lookup(b, x)
    ensures Lookup(Manifests(a, n), k) == Lookup(Manifests(b, n), k)
  {
    forall x | Prefix(x, n) == k ensures x in a <==> x in b {
      assert Lookup(a, x) == Lookup(b, x);
    }
    assert Under(a, k, n) == Under(b, k, n) by {
      forall x | x in a && Prefix(x, n) == k ensures a[x] == b[x] {
        assert Lookup(a, x) == Lookup(b, x);
      }
    }
    assert k in Prefixes(a, n) <==> exists x :: x in a && Prefix(x, n) == k;
    assert k in Prefixes(b, n) <==> exists x :: x in b && Prefix(x, n) == k;
  }

  lemma RollUpBinds(s: Tier, k: string)
    ensures Lookup(RollUp(s).manifests, k) ==
            if k in YearRoots(s) then Some(YearRoots(s)[k])
            else if k in MonthRoots(s) then Some(MonthRoots(s)[k])
            else Lookup(s.manifests, k)
  {
  }

  lemma UntouchedManifests(s: Tier, t: Tier, date: string, other: string)
    requires forall d :: d != date ==> Lookup(s.days, d) == Lookup(t.days, d)
    requires s.manifests == t.manifests
    requires other != Prefix(date, MONTH) && other != Prefix(date, YEAR)
    ensures Lookup(RollUp(t).manifests, other) == Lookup(RollUp(s).manifests, other)
  {
    assert forall d :: d in s.days <==> Lookup(s.days, d).Some?;
    assert forall d :: d in t.days <==> Lookup(t.days, d).Some?;
    forall x | x != date ensures Lookup(DayRoots(s), x) == Lookup(DayRoots(t), x) {
      assert Lookup(s.days, x) == Lookup(t.days, x);
    }
    forall m | m != Prefix(date, MONTH) ensures Lookup(MonthRoots(s), m) == Lookup(MonthRoots(t), m) {
      ManifestIsLocal(DayRoots(s), DayRoots(t), MONTH, m);
    }
    UntouchedYear(MonthRoots(s), MonthRoots(t), date, other);
    RollUpBinds(s, other);
    RollUpBinds(t, other);
    assert Lookup(MonthRoots(s), other) == Lookup(MonthRoots(t), other);
  }

  lemma UntouchedYear(a: map<string, Cid>, b: map<string, Cid>, date: string, other: string)
    requires forall m :: m != Prefix(date, MONTH) ==> Lookup(a, m) == Lookup(b, m)
    requires other != Prefix(date, YEAR)
    ensures Lookup(Manifests(a, YEAR), other) == Lookup(Manifests(b, YEAR), other)
  {
    assert Prefix(Prefix(date, MONTH), YEAR) == Prefix(date, YEAR);
    ManifestIsLocal(a, b, YEAR, other);
  }

  /** Filing an event under one day rebinds that day, and at the next roll-up its own month and year; every
      other name of the store keeps its binding. */
  lemma RollUpIsLocal(s: Tier, date: string, key: EventKey, record: Cid, clock: nat, other: string)
    ensures var t := RecordInDay(s, date, key, record, clock);
            && RollUp(t).names == RollUp(s).names
            && (other != date ==> Lookup(RollUp(t).days, other) == Lookup(RollUp(s).days, other))
            && (other != Prefix(date, MONTH) && other != Prefix(date, YEAR) ==>
                  Lookup(RollUp(t).manifests, other) == Lookup(RollUp(s).manifests, other))
  {
    if other != Prefix(date, MONTH) && other != Prefix(date, YEAR) {
      UntouchedManifests(s, RecordInDay(s, date, key, record, clock), date, other);
    }
  }
}
