/** The content-addressed store behind ingest: immutable nodes, mutable names, the day tier and the
    month and year manifests derived from it (crates/core/src/binding.rs).

    A CID is an injective function of the block it names, so it is modelled as that block: the record
    envelope's timestamp and its body.  Links are therefore the linked blocks themselves. */
module Store {
  import opened Basics
  import opened Events
  import opened Ordering

  /** A record's timestamp: a clock reading, or the start of the period a manifest indexes. */
  datatype Stamp = At(unixSeconds: nat) | StartOf(period: string)

  datatype Cid = Cid(createdAt: Stamp, node: Node)

  datatype Node =
    | Prompt(text: string)
    | Response(text: string, model: string)
    | ToolResult(tool: string, input: string, output: string, ok: bool)
    | Blob(bytes: Bytes, mediaType: string)
    | FileRef(path: string, size: nat, content: Cid)
    | Decision(question: string, choice: string, rationale: string)
    | Memory(text: string, kind: string)
    | Checkpoint(title: string, root: Cid, parent: Option<Cid>)
    | DayIndex(date: string, events: map<EventKey, Cid>)
    | MonthIndex(month: string, days: seq<Entry<Cid>>)
    | YearIndex(year: string, months: seq<Entry<Cid>>)

  /** The names a session binds.  The names of the calendar tier are kept by kind: see `Tier`. */
  datatype Name =
    | CheckpointName(session: SessionKey, title: string)
    | SessionLatest(session: SessionKey)
    | HostLatest(host: string)
    | ProjectLatest(project: string)
    | Latest
    | EventMarker(session: SessionKey, of: Envelope)

  /** What the name `day-<date>` is bound to: the latest index node of that day. */
  datatype Day = Day(stamp: nat, events: map<EventKey, Cid>)

  /** The stored nodes and every name binding: `days` holds what `day-<date>` is bound to, and `manifests`
      what `month-<label>` and `year-<label>` are (a month's label has seven characters, a year's four). */
  datatype Tier = Tier(nodes: set<Cid>, names: map<Name, Cid>, days: map<string, Day>, manifests: map<string, Cid>)

  function DayCid(date: string, day: Day): Cid {
    Cid(At(day.stamp), DayIndex(date, day.events))
  }

  function Put(s: Tier, cid: Cid): Tier {
    s.(nodes := s.nodes + {cid})
  }

  function Bind(s: Tier, name: Name, cid: Cid): Tier {
    s.(names := s.names[name := cid])
  }

  /** The latest index of a day; a day with no binding has no events. */
  function DayOf(s: Tier, date: string): Day {
    if date in s.days then s.days[date] else Day(0, map[])
  }

  function DayEvents(s: Tier, date: string): map<EventKey, Cid> {
    DayOf(s, date).events
  }

  predicate DayContains(s: Tier, date: string, key: EventKey) {
    key in DayEvents(s, date)
  }

  function RecordInDay(s: Tier, date: string, key: EventKey, record: Cid, clock: nat): Tier {
    var day := Day(clock, DayEvents(s, date)[key := record]);
    Put(s, DayCid(date, day)).(days := s.days[date := day])
  }

  // ---- the month and year manifests, as a function of the days ---------------------------------

  const MONTH := 7
  const YEAR := 4

  /** The day roots that are rolled up: dates shorter than `YYYY-MM` are not. */
  function DayRoots(s: Tier): map<string, Cid> {
    map d | d in s.days && |d| >= MONTH :: DayCid(d, s.days[d])
  }

  /** A manifest is stamped with the start of its period, so it is a function of what it lists. */
  function ManifestOf(period: string, n: nat, entries: seq<Entry<Cid>>): Cid {
    Cid(StartOf(period), if n == MONTH then MonthIndex(period, entries) else YearIndex(period, entries))
  }

  /** One manifest per prefix of length `n`, listing the roots under that prefix in order. */
  ghost function Manifests(roots: map<string, Cid>, n: nat): map<string, Cid> {
    map k | k in Prefixes(roots, n) :: ManifestOf(k, n, Listing(Under(roots, k, n)))
  }

  ghost function MonthRoots(s: Tier): map<string, Cid> {
    Manifests(DayRoots(s), MONTH)
  }

  ghost function YearRoots(s: Tier): map<string, Cid> {
    Manifests(MonthRoots(s), YEAR)
  }

  function Targets(m: map<string, Cid>): set<Cid> {
    set k | k in m :: m[k]
  }

  function BindManifests(s: Tier, ms: map<string, Cid>): Tier {
    s.(nodes := s.nodes + Targets(ms), manifests := s.manifests + ms)
  }

  ghost function RollUp(s: Tier): Tier {
    BindManifests(BindManifests(s, MonthRoots(s)), YearRoots(s))
  }

  predicate SubMap(a: map<string, Cid>, b: map<string, Cid>) {
    forall k :: k in a ==> k in b && a[k] == b[k]
  }

  /** Nothing more, or one of the nodes. */
  ghost predicate AtMostOneMore(s: Tier, t: Tier, cids: set<Cid>) {
    t == s || exists c :: c in cids && t == Put(s, c)
  }

  /** What a roll-up may leave: some of the month manifests bound, then some of the year manifests, and possibly one
      manifest that was stored and not bound any more. */
  ghost predicate PartlyRolledUp(s: Tier, t: Tier, months: map<string, Cid>, years: map<string, Cid>) {
    && SubMap(months, MonthRoots(s))
    && SubMap(years, YearRoots(s))
    && AtMostOneMore(BindManifests(BindManifests(s, months), years), t, Targets(MonthRoots(s)) + Targets(YearRoots(s)))
  }

  lemma BindOneMore(s: Tier, ms: map<string, Cid>, k: string, cid: Cid)
    requires k !in ms
    ensures BindManifests(s, ms[k := cid])
            == Put(BindManifests(s, ms), cid).(manifests := BindManifests(s, ms).manifests[k := cid])
  {
    assert (s.manifests + ms)[k := cid] == s.manifests + ms[k := cid];
    TargetsGrow(ms, k, cid);
    assert s.nodes + (Targets(ms) + {cid}) == s.nodes + Targets(ms) + {cid};
  }

  lemma TargetsGrow(ms: map<string, Cid>, k: string, cid: Cid)
    requires k !in ms
    ensures Targets(ms[k := cid]) == Targets(ms) + {cid}
  {
    var more := ms[k := cid];
    forall x | x in Targets(ms) ensures x in Targets(more) {
      var j :| j in ms && ms[j] == x;
      assert j in more && more[j] == x;
    }
    assert k in more && more[k] == cid;
  }
}
