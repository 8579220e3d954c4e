/** The ingest loop as it runs: sessions and report are updated in place, envelope by envelope, and every
    method's effect is the one the `Ingest` module describes. */
module Ingester {
  import opened Basics
  import opened Events
  import opened Store
  import opened Binding
  import opened Ingest

  class JsonlIngester {
    const binding: CoreBinding
    var sessions: map<SessionKey, SessionState>
    var report: Report

    ghost function Abs(): World
      reads this, binding
    {
      World(binding.Abs(), sessions, report)
    }

    constructor (binding: CoreBinding)
      ensures this.binding == binding && sessions == map[] && report == EMPTY_REPORT
    {
      this.binding := binding;
      sessions, report := map[], EMPTY_REPORT;
    }

    /** The store, state and report that an outcome's writes and credits lead to. */
    ghost predicate Leaves(s: Tier, r: Report, o: Outcome, st: SessionState, failure: Option<Call>)
      reads this, binding
    {
      binding.Abs() == Apply(s, o.writes) && st == o.state && failure == o.failure && report == Credit(r, o)
    }

    /** Write a node, make it the head, file it under its day, and bind a waiting start marker to it. */
    method WriteNode(st0: SessionState, it: Item, node: Node) returns (st: SessionState, failure: Option<Call>)
      modifies this`report, binding
      ensures Leaves(old(binding.Abs()), old(report), Ingest.WriteNode(st0, it, node), st, failure)
    {
      ghost var s := binding.Abs();
      st := st0;
      var cid;
      cid, failure := PutAndFile(it, node);
      if failure == Some(PutNode) {
        return;
      }
      st := st.(head := Some(cid));
      if failure.Some? {
        return;
      }
      if st.startMarker.Some? {
        var marker := st.startMarker.value;
        st := st.(startMarker := None);
        st, failure := BindEventMarker(st, marker, cid, BindStart in it.faults, BindStart, s,
                                       [PutOne(cid), FileOne(it.Date(), it.Key(), cid, it.clock)]);
        if failure.Some? {
          return;
        }
      }
      report := report.(recordCids := report.recordCids + [cid]);
      report := report.(nodesWritten := report.nodesWritten + 1);
    }

    method PutAndFile(it: Item, node: Node) returns (cid: Cid, failure: Option<Call>)
      modifies this`report, binding
      ensures cid == Cid(At(it.clock), node)
      ensures failure == if PutNode in it.faults then Some(PutNode)
                         else if RecordDay in it.faults then Some(RecordDay) else None
      ensures binding.Abs() == Apply(old(binding.Abs()),
                                     if PutNode in it.faults then []
                                     else if RecordDay in it.faults then [PutOne(cid)]
                                     else [PutOne(cid), FileOne(it.Date(), it.Key(), cid, it.clock)])
      ensures report == if failure.Some? then old(report) else old(report).(namesBound := old(report).namesBound + 1)
    {
      cid := Cid(At(it.clock), node);
      if PutNode in it.faults {
        return cid, Some(PutNode);
      }
      ApplyPair(binding.Abs(), PutOne(cid), FileOne(it.Date(), it.Key(), cid, it.clock));
      cid := binding.PutNode(node, At(it.clock));
      if RecordDay in it.faults {
        return cid, Some(RecordDay);
      }
      var _ := binding.RecordEventInDay(it.Date(), it.Key(), cid, it.clock);
      report := report.(namesBound := report.namesBound + 1);
      failure := None;
    }

    method WriteFile(st0: SessionState, it: Item) returns (st: SessionState, failure: Option<Call>)
      requires it.env.event.IsFile()
      modifies this`report, binding
      ensures Leaves(old(binding.Abs()), old(report), Ingest.WriteFile(st0, it), st, failure)
    {
      if it.disk.None? {
        return st0, Some(ReadFile);
      }
      if PutBlob in it.faults {
        return st0, Some(PutBlob);
      }
      var blob := binding.PutNode(Blob(it.disk.value.bytes, it.disk.value.mediaType), At(0));
      ApplyCons(old(binding.Abs()), PutOne(blob), Ingest.WriteNode(st0, it, ContentNode(it, "")).writes);
      report := report.(blobsWritten := report.blobsWritten + [blob]);
      st, failure := WriteNode(st0, it, ContentNode(it, ""));
    }

    /** Write a checkpoint over the head, chained to the previous one, and bind its names in order. */
    method WriteCheckpoint(st0: SessionState, it: Item, title: string)
      returns (st: SessionState, failure: Option<Call>)
      modifies this`report, binding
      ensures Leaves(old(binding.Abs()), old(report), Ingest.WriteCheckpoint(st0, it, title), st, failure)
    {
      st, failure := st0, None;
      if st.head.None? {
        return;
      }
      if PutCheckpoint in it.faults {
        return st, Some(PutCheckpoint);
      }
      var cp := binding.CheckpointNode(title, st.head.value, st.lastCheckpoint, it.clock);
      ApplySnoc(old(binding.Abs()), [], PutOne(cp));
      if LockCheckpoint in it.faults {
        return st, Some(LockCheckpoint);
      }
      report := report.(checkpoints := report.checkpoints + 1);
      report := report.(recordCids := report.recordCids + [cp]);
      st, failure := BindCheckpoint(st, it, cp, ScopedNames(it.env, title), old(binding.Abs()), old(report));
    }

    lemma BindOneMoreName(s: Tier, names: seq<Name>, cp: Cid, i: nat)
      requires i < |names|
      ensures Apply(s, [PutOne(cp)] + BindEach(names[..i + 1], cp))
              == Bind(Apply(s, [PutOne(cp)] + BindEach(names[..i], cp)), names[i], cp)
    {
      var before := [PutOne(cp)] + BindEach(names[..i], cp);
      ApplySnoc(s, before, BindOne(names[i], cp));
      assert BindEach(names[..i + 1], cp) == BindEach(names[..i], cp) + [BindOne(names[i], cp)];
      Regroup([PutOne(cp)], BindEach(names[..i], cp), [BindOne(names[i], cp)]);
    }

    method BindCheckpoint(st0: SessionState, it: Item, cp: Cid, names: seq<Name>, ghost s: Tier, ghost r: Report)
      returns (st: SessionState, failure: Option<Call>)
      requires binding.Abs() == Apply(s, [PutOne(cp)])
      requires report == r.(recordCids := r.recordCids + [cp], checkpoints := r.checkpoints + 1)
      modifies this`report, binding
      ensures Leaves(s, r, Ingest.BindCheckpoint(st0, it, cp, names), st, failure)
    {
      st := st0;
      failure := BindNames(it, cp, names, s);
      if failure.Some? {
        StopsAtAName(st0, it, cp, names);
      } else {
        AllNamesBound(st0, it, cp, names);
        st, failure := BindMarkers(st, it, cp, s, [PutOne(cp)] + BindEach(names, cp));
      }
    }

    lemma StopsAtAName(st: SessionState, it: Item, cp: Cid, names: seq<Name>)
      requires BoundUpTo(names, it.faults, 0) < |names|
      ensures var n := BoundUpTo(names, it.faults, 0);
              Ingest.BindCheckpoint(st, it, cp, names)
              == Outcome([PutOne(cp)] + BindEach(names[..n], cp), st, [cp], 0, 1, n, [], Some(BindScoped(n)))
    {
    }

    lemma AllNamesBound(st: SessionState, it: Item, cp: Cid, names: seq<Name>)
      requires BoundUpTo(names, it.faults, 0) == |names|
      ensures names[..|names|] == names
      ensures var ws, n := [PutOne(cp)] + BindEach(names, cp), |names|;
              var chained := st.(startMarker := None, lastCheckpoint := Some(cp));
              var own := ws + [BindOne(it.Marker(), cp)];
              Ingest.BindCheckpoint(st, it, cp, names)
              == if BindMarker in it.faults then Outcome(ws, st, [cp], 0, 1, n, [], Some(BindMarker))
                 else if st.startMarker.None? || st.startMarker == Some(it.Marker()) then
                   Outcome(own, chained, [cp], 0, 1, n + 1, [], None)
                 else if BindStart in it.faults then Outcome(own, st, [cp], 0, 1, n + 1, [], Some(BindStart))
                 else Outcome(own + [BindOne(st.startMarker.value, cp)], chained, [cp], 0, 1, n + 2, [], None)
    {
      assert names[..|names|] == names;
    }

    /** The names in order, up to the first refusal. */
    method BindNames(it: Item, cp: Cid, names: seq<Name>, ghost s: Tier) returns (failure: Option<Call>)
      requires binding.Abs() == Apply(s, [PutOne(cp)])
      modifies this`report, binding
      ensures var n := BoundUpTo(names, it.faults, 0);
              && binding.Abs() == Apply(s, [PutOne(cp)] + BindEach(names[..n], cp))
              && report == old(report).(namesBound := old(report).namesBound + n)
              && failure == if n < |names| then Some(BindScoped(n)) else None
    {
      var i := 0;
      NothingMore([PutOne(cp)]);
      while i < |names|
        invariant 0 <= i <= |names|
        invariant binding.Abs() == Apply(s, [PutOne(cp)] + BindEach(names[..i], cp))
        invariant report == old(report).(namesBound := old(report).namesBound + i)
        invariant BoundUpTo(names, it.faults, 0) == BoundUpTo(names, it.faults, i)
      {
        if BindScoped(i) in it.faults {
          return Some(BindScoped(i));
        }
        binding.BindName(names[i], cp);
        BindOneMoreName(s, names, cp, i);
        report := report.(namesBound := report.namesBound + 1);
        i := i + 1;
      }
      failure := None;
    }

    /** The event's own marker, and then a start marker that waits. */
    method BindMarkers(st0: SessionState, it: Item, cp: Cid, ghost s: Tier, ghost ws: seq<Write>)
      returns (st: SessionState, failure: Option<Call>)
      requires binding.Abs() == Apply(s, ws)
      modifies this`report, binding
      ensures var own, start := ws + [BindOne(it.Marker(), cp)], st0.startMarker;
              if BindMarker in it.faults then
                st == st0 && failure == Some(BindMarker) && binding.Abs() == Apply(s, ws) && report == old(report)
              else if start.None? || start == Some(it.Marker()) then
                && st == st0.(startMarker := None, lastCheckpoint := Some(cp)) && failure.None?
                && binding.Abs() == Apply(s, own) && report == old(report).(namesBound := old(report).namesBound + 1)
              else if BindStart in it.faults then
                && st == st0 && failure == Some(BindStart)
                && binding.Abs() == Apply(s, own) && report == old(report).(namesBound := old(report).namesBound + 1)
              else
                && st == st0.(startMarker := None, lastCheckpoint := Some(cp)) && failure.None?
                && binding.Abs() == Apply(s, own + [BindOne(start.value, cp)])
                && report == old(report).(namesBound := old(report).namesBound + 2)
    {
      st, failure := BindEventMarker(st0, it.Marker(), cp, BindMarker in it.faults, BindMarker, s, ws);
      if failure.Some? {
        return;
      }
      if st.startMarker.Some? {
        st, failure := BindEventMarker(st, st.startMarker.value, cp, BindStart in it.faults, BindStart, s,
                                       ws + [BindOne(it.Marker(), cp)]);
        if failure.Some? {
          return;
        }
      }
      st := st.(lastCheckpoint := Some(cp));
    }

    /** Bind an event's marker, which no longer waits then. */
    method BindEventMarker(st0: SessionState, marker: Name, cid: Cid, refused: bool, call: Call, ghost s: Tier,
                           ghost ws: seq<Write>)
      returns (st: SessionState, failure: Option<Call>)
      requires binding.Abs() == Apply(s, ws)
      modifies this`report, binding
      ensures refused ==> st == st0 && failure == Some(call) && binding.Abs() == Apply(s, ws) && report == old(report)
      ensures !refused ==>
                && failure.None? && st == (if st0.startMarker == Some(marker) then st0.(startMarker := None) else st0)
                && binding.Abs() == Apply(s, ws + [BindOne(marker, cid)])
                && report == old(report).(namesBound := old(report).namesBound + 1)
    {
      st, failure := st0, None;
      if refused {
        return st, Some(call);
      }
      binding.BindName(marker, cid);
      ApplySnoc(s, ws, BindOne(marker, cid));
      report := report.(namesBound := report.namesBound + 1);
      if st.startMarker == Some(marker) {
        st := st.(startMarker := None);
      }
    }

    method Process(st0: SessionState, it: Item) returns (st: SessionState, failure: Option<Call>)
      modifies this`report, binding
      ensures Leaves(old(binding.Abs()), old(report), Ingest.Process(st0, it), st, failure)
    {
      st, failure := st0, None;
      match it.env.event
      case SessionStarted(_) =>
        st := FRESH.(seen := st.seen, startMarker := Some(it.Marker()));
      case ToolCallStarted(tool, args) =>
        st := PushArgs(st, tool, OrElse(args, ""));
      case ToolCallFinished(tool, _, _) =>
        var input := OldestArgs(st, tool);
        st := PopArgs(st, tool);
        st, failure := WriteNode(st, it, ContentNode(it, input));
      case FileRead(_) => st, failure := WriteFile(st, it);
      case FileWritten(_) => st, failure := WriteFile(st, it);
      case CheckpointRequested(title) => st, failure := WriteCheckpoint(st, it, OrElse(title, "checkpoint"));
      case SessionEnded => st, failure := WriteCheckpoint(st, it, "session-ended");
      case _ => st, failure := WriteNode(st, it, ContentNode(it, ""));
    }

    /** Map one envelope onto the store; a refusal is reported to the caller. */
    method Handle(it: Item) returns (failure: Option<Call>)
      modifies this, binding
      ensures Abs() == Settle(old(Abs()), it, old(report)).0 && failure == Settle(old(Abs()), it, old(report)).1
    {
      var sid := it.Session();
      var st := if sid in sessions then sessions[sid] else FRESH;
      failure := None;
      if it.Key() !in st.seen {
        st := See(st, it);
        if AskDay in it.faults {
          failure := Some(AskDay);
        } else {
          var known := binding.Contains(it.Date(), it.Key());
          if !known {
            st, failure := Process(st, it);
          }
        }
      }
      sessions := sessions[sid := st];
    }

    /** The world an envelope leaves before a refusal is noted, and the refusal. */
    ghost function Settle(w: World, it: Item, before: Report): (World, Option<Call>) {
      var o := Effect(w, it);
      (World(Apply(w.store, o.writes), w.sessions[it.Session() := o.state], Credit(before, o)), o.failure)
    }

    /** Every envelope in turn; a refused one is noted and the stream continues. */
    method HandleAll(items: seq<Item>)
      modifies this, binding
      ensures Abs() == Run(old(Abs()), items)
    {
      var i := 0;
      while i < |items|
        invariant 0 <= i <= |items|
        invariant Abs() == Run(old(Abs()), items[..i])
      {
        HandleNext(items[i]);
        RunSnoc(old(Abs()), items[..i], items[i]);
        assert items[..i + 1] == items[..i] + [items[i]];
        i := i + 1;
      }
      assert items[..i] == items;
    }

    method HandleNext(it: Item)
      modifies this, binding
      ensures Abs() == Step(old(Abs()), it)
    {
      report := report.(events := report.events + 1);
      var failure := Handle(it);
      if failure.Some? {
        report := report.(skipped := report.skipped + [Skip(it.line, failure.value)]);
      }
    }

    /** A whole run: every envelope, then the roll-up once.  A failed roll-up is noted under line 0. */
    method IngestEnvelopes(items: seq<Item>, unstored: set<string>, unbound: set<string>)
      returns (rolledUp: bool, ghost ms: map<string, Cid>, ghost ys: map<string, Cid>)
      modifies this, binding
      ensures var w := Run(old(Abs()), items);
              && sessions == w.sessions
              && PartlyRolledUp(w.store, binding.Abs(), ms, ys)
              && (rolledUp ==> binding.Abs() == RollUp(w.store) && report == w.report)
              && (!rolledUp ==> report == w.report.(skipped := w.report.skipped + [Skip(0, RollUpDays)]))
      ensures var w := Run(old(Abs()), items);
              rolledUp <==> (MonthRoots(w.store).Keys + YearRoots(w.store).Keys) !! unstored + unbound
    {
      HandleAll(items);
      rolledUp, ms, ys := binding.RollUpCalendar(unstored, unbound);
      if !rolledUp {
        report := report.(skipped := report.skipped + [Skip(0, RollUpDays)]);
      }
    }
  }
}
