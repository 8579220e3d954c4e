/** The store as the adapters see it: an object whose methods write nodes, bind names, file events under
    their day and roll the days up (crates/core/src/binding.rs). */
module Binding {
  import opened Basics
  import opened Events
  import opened Ordering
  import opened Store

  class CoreBinding {
    var nodes: set<Cid>
    var names: map<Name, Cid>
    var days: map<string, Day>
    var manifests: map<string, Cid>

    ghost function Abs(): Tier
      reads this
    {
      Tier(nodes, names, days, manifests)
    }

    constructor (s: Tier)
      ensures Abs() == s
    {
      nodes, names, days, manifests := s.nodes, s.names, s.days, s.manifests;
    }

    method PutNode(node: Node, stamp: Stamp) returns (cid: Cid)
      modifies this
      ensures cid == Cid(stamp, node) && Abs() == Put(old(Abs()), cid)
    {
      cid := Cid(stamp, node);
      nodes := nodes + {cid};
    }

    method BindName(name: Name, cid: Cid)
      modifies this
      ensures Abs() == Bind(old(Abs()), name, cid)
    {
      names := names[name := cid];
    }

    method Contains(date: string, key: EventKey) returns (found: bool)
      ensures found == DayContains(Abs(), date, key)
    {
      found := date in days && key in days[date].events;
    }

    /** Load the day's index or start a fresh one, add the event, and rebind the day to the result. */
    method RecordEventInDay(date: string, key: EventKey, record: Cid, clock: nat) returns (day: Cid)
      modifies this
      ensures Abs() == RecordInDay(old(Abs()), date, key, record, clock)
      ensures day == DayCid(date, DayOf(Abs(), date))
    {
      var events := if date in days then days[date].events else map[];
      events := events[key := record];
      day := PutNode(DayIndex(date, events), At(clock));
      days := days[date := Day(clock, events)];
    }

    method CheckpointNode(title: string, root: Cid, parent: Option<Cid>, clock: nat) returns (cp: Cid)
      modifies this
      ensures cp == Cid(At(clock), Checkpoint(title, root, parent)) && Abs() == Put(old(Abs()), cp)
    {
      cp := PutNode(Checkpoint(title, root, parent), At(clock));
    }

    /** Group the day roots by month, in whatever order the name index yields them. */
    method GroupDays() returns (byMonth: map<string, seq<Entry<Cid>>>)
      ensures Grouped(byMonth, DayRoots(Abs()), MONTH)
    {
      byMonth := map[];
      ghost var done: map<string, Cid> := map[];
      var rest := days.Keys;
      while rest != {}
        invariant rest <= days.Keys
        invariant done == DayRoots(Abs()) - rest
        invariant Grouped(byMonth, done, MONTH)
        decreases rest
      {
        var date :| date in rest;
        OneLessToDo(DayRoots(Abs()), rest, date);
        rest := rest - {date};
        if |date| >= MONTH {
          PushKeepsGroups(byMonth, done, MONTH, date, DayCid(date, days[date]));
          byMonth := PushUnder(byMonth, date[..MONTH], Entry(date, DayCid(date, days[date])));
          done := done[date := DayCid(date, days[date])];
        }
      }
      assert DayRoots(Abs()) - {} == DayRoots(Abs());
    }

    lemma OneLessToDo(roots: map<string, Cid>, rest: set<string>, date: string)
      requires date in rest
      ensures roots - (rest - {date}) == if date in roots then (roots - rest)[date := roots[date]] else roots - rest
    {
    }

    /** Sort, store and bind the manifest of each group.  A label that cannot be stored ends the roll-up before its
        manifest, one that cannot be bound after it. */
    method BindGroups(groups: map<string, seq<Entry<Cid>>>, ghost roots: map<string, Cid>, n: nat,
                      unstored: set<string>, unbound: set<string>)
      returns (ok: bool, bound: map<string, Cid>)
      requires Grouped(groups, roots, n)
      modifies this
      ensures SubMap(bound, Manifests(roots, n))
      ensures AtMostOneMore(BindManifests(old(Abs()), bound), Abs(), Targets(Manifests(roots, n)))
      ensures ok ==> bound == Manifests(roots, n) && Abs() == BindManifests(old(Abs()), bound)
      ensures ok <==> groups.Keys !! unstored + unbound
    {
      ghost var s, all := Abs(), Manifests(roots, n);
      bound := map[];
      var rest := groups.Keys;
      BindNothing(s);
      while rest != {}
        invariant rest <= groups.Keys && BoundSoFar(groups.Keys - rest, bound, all)
        invariant Abs() == BindManifests(s, bound)
        invariant groups.Keys - rest !! unstored + unbound
        decreases rest
      {
        var k :| k in rest;
        if k in unstored {
          return false, bound;
        }
        if k in unbound {
          var cid := StoreGroup(k, n, groups[k], roots);
          OneMoreStored(s, bound, Abs(), cid, Targets(all));
          return false, bound;
        }
        OneMoreBound(groups.Keys, rest, bound, all, k);
        rest := rest - {k};
        bound := BindGroup(s, bound, k, n, groups[k], roots);
      }
      assert groups.Keys - {} == groups.Keys;
      AllAreBound(bound, all);
      ok := true;
    }

    /** The manifests of the labels done are bound, and no other. */
    ghost predicate BoundSoFar(done: set<string>, bound: map<string, Cid>, all: map<string, Cid>) {
      SubMap(bound, all) && bound.Keys == done
    }

    lemma OneMoreStored(s: Tier, bound: map<string, Cid>, t: Tier, cid: Cid, cids: set<Cid>)
      requires t == Put(BindManifests(s, bound), cid) && cid in cids
      ensures AtMostOneMore(BindManifests(s, bound), t, cids)
    {
    }

    lemma OneMoreBound(keys: set<string>, rest: set<string>, bound: map<string, Cid>, all: map<string, Cid>, k: string)
      requires rest <= keys && k in rest && k in all && BoundSoFar(keys - rest, bound, all)
      ensures keys - (rest - {k}) == (keys - rest) + {k}
      ensures BoundSoFar(keys - (rest - {k}), bound[k := all[k]], all)
    {
    }

    lemma AllAreBound(bound: map<string, Cid>, all: map<string, Cid>)
      requires SubMap(bound, all) && bound.Keys == all.Keys
      ensures bound == all
    {
    }

    method StoreGroup(k: string, n: nat, group: seq<Entry<Cid>>, ghost roots: map<string, Cid>) returns (cid: Cid)
      requires k in Prefixes(roots, n) && Distinct(group) && Lists(group, Under(roots, k, n))
      modifies this
      ensures cid == Manifests(roots, n)[k] && cid in Targets(Manifests(roots, n)) && Abs() == Put(old(Abs()), cid)
    {
      SortedListing(group, Under(roots, k, n));
      cid := PutNode(ManifestOf(k, n, Sort(group)).node, StartOf(k));
    }

    method BindGroup(ghost s: Tier, before: map<string, Cid>, k: string, n: nat, group: seq<Entry<Cid>>,
                     ghost roots: map<string, Cid>)
      returns (bound: map<string, Cid>)
      requires Abs() == BindManifests(s, before) && k !in before
      requires k in Prefixes(roots, n) && Distinct(group) && Lists(group, Under(roots, k, n))
      modifies this
      ensures bound == before[k := Manifests(roots, n)[k]] && Abs() == BindManifests(s, bound)
    {
      var cid := StoreGroup(k, n, group, roots);
      BindOneMore(s, before, k, cid);
      manifests := manifests[k := cid];
      bound := before[k := cid];
    }

    /** The months just bound, grouped by year. */
    method GroupMonths(months: map<string, Cid>) returns (byYear: map<string, seq<Entry<Cid>>>)
      ensures Grouped(byYear, months, YEAR)
    {
      byYear := map[];
      ghost var done: map<string, Cid> := map[];
      var rest := months.Keys;
      while rest != {}
        invariant rest <= months.Keys
        invariant done == months - rest
        invariant Grouped(byYear, done, YEAR)
        decreases rest
      {
        var month :| month in rest;
        rest := rest - {month};
        PushKeepsGroups(byYear, done, YEAR, month, months[month]);
        byYear := PushUnder(byYear, Prefix(month, YEAR), Entry(month, months[month]));
        done := done[month := months[month]];
      }
      assert months - {} == months;
    }

    /** Bind each month's manifest, then each year's.  A label that cannot be stored or bound ends the roll-up with
        some months `ms` and years `ys` done. */
    method RollUpCalendar(unstored: set<string>, unbound: set<string>)
      returns (ok: bool, ghost ms: map<string, Cid>, ghost ys: map<string, Cid>)
      modifies this
      ensures PartlyRolledUp(old(Abs()), Abs(), ms, ys)
      ensures ok ==> Abs() == RollUp(old(Abs()))
      ensures ok <==> (MonthRoots(old(Abs())).Keys + YearRoots(old(Abs())).Keys) !! unstored + unbound
    {
      ghost var s := Abs();
      var byMonth := GroupDays();
      ghost var days := DayRoots(s);
      var months;
      ok, months := BindGroups(byMonth, days, MONTH, unstored, unbound);
      ms, ys := months, map[];
      if ok {
        var byYear := GroupMonths(months);
        var years;
        ok, years := BindGroups(byYear, months, YEAR, unstored, unbound);
        ys := years;
        EndsInTheYears(s, Abs(), ys);
      } else {
        EndsInTheMonths(s, Abs(), ms);
      }
    }
  }

  lemma EndsInTheMonths(s: Tier, t: Tier, ms: map<string, Cid>)
    requires SubMap(ms, MonthRoots(s)) && AtMostOneMore(BindManifests(s, ms), t, Targets(MonthRoots(s)))
    ensures PartlyRolledUp(s, t, ms, map[])
  {
    BindNothing(BindManifests(s, ms));
  }

  lemma EndsInTheYears(s: Tier, t: Tier, ys: map<string, Cid>)
    requires var ms := MonthRoots(s);
             && SubMap(ys, YearRoots(s))
             && AtMostOneMore(BindManifests(BindManifests(s, ms), ys), t, Targets(YearRoots(s)))
    ensures PartlyRolledUp(s, t, MonthRoots(s), ys)
  {
  }

  lemma BindNothing(s: Tier)
    ensures BindManifests(s, map[]) == s
  {
    var none: map<string, Cid> := map[];
    assert Targets(none) == {} && s.manifests + none == s.manifests;
  }
}
