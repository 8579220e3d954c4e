# Concierge: a verified model

Concierge keeps what a person's coding agents did as content-addressed records. This project models its core in Dafny
and proves what it is relied on for:

- **Ingest** (`Events`, `Store`, `Ingest`, `Ingester`, `Binding`): envelopes become nodes, names, day entries and
  checkpoints, one session's running state at a time. `Ingest` says what one envelope does, as a function; the classes
  `JsonlIngester` and `CoreBinding` do it step by step and are proved to do just that, with any of the calls an
  envelope makes refused; `Records` and `Refusals` say what that files and what a refusal leaves. Whole runs are the
  subject of `Replay`, `Sessions`, `History`, `Pairing`, `Filing`, `Rereading`, `Lineages` and `KeyedRuns`.
- **The calendar** (`Calendar`, `CalendarTier`, `Ordering`): two independently written halves of the Gregorian
  conversion, and the month and year manifests derived from the days.
- **The graph of blocks** (`Graph`, `Car`, `Gc`): a recursive and a batched walk over arbitrary, possibly cyclic
  graphs; verified archives; retention, and what it does to walks.
- **Capabilities** (`Namespaces`, `Capabilities`): chains of signed grants.
- **Transcripts** (`Codex`, `RolloutText`, `Rollouts`, `RolloutPairing`, `ClaudeCode`, `ChunkText`, `Tail`,
  `TailLabels`, `TailIngest`, `SharedIds`, `ChunkPairing`, `TailPairing`, `Watcher`, `Aider`, `HistoryLines`,
  `HistoryParagraphs`, `Histories`, `HistoryText`, `HistoryGrowth`, `HistoryIngest`, `Projections`): the stateful
  translators that feed the ingest, what becomes of every message, call and line, how the output grows with a growing
  file, and what that leaves in the day index and in the records.
- **Small algorithms** (`SiteNames`, `Percent`, `Fields`, `Batches`, `NameStrings`, `EventIds`, `Text`, `Basics`).

`dafny verify dfyconfig.toml` checks everything.

## How it is modelled

- A CID is an injective function of the block it names. In the ingest modules it is that block: a timestamp and a
  node. In the graph modules it is a codec and a hash, and the hash and the record decoder are parameters.
- A clock reading is a field of the item it belongs to, one for each envelope, as is today's date. A manifest's
  timestamp is the start of its period, whose value `Calendar` gives.
- A refused call (a store error, an unreadable file) is an element of the item's `faults`. A clean run is one that
  skipped nothing.
- The day index, a hash-array-mapped trie in the store, is a finite map. The fingerprint of an envelope is the envelope
  without its import provenance. Names are kept as data; `NameStrings` says exactly when two of them are one string,
  and `KeyedRuns` that with plain ids a run over strings is the run over names.
- Signatures cannot be forged: one is made with a key over a grant. Root keys and revocations are given as sets.
- A transcript is what its lines or records decode to; the JSON parser is a parameter or has been applied already. A
  poll of a file is atomic, and may fail.
- Dates and labels are strings of single-byte characters. Integers are unbounded.

## What the code does not do

Where the code and its comments or an obvious expectation differ, the model follows the code:

- Reasoning is said to land in the same record as its step (`crates/core/src/event.rs:34-36`); this ingest stores none
  of it (`History.ReasoningLeavesNoTrace`).
- Text blocks on a user's line are recorded as a response; only a user's plain text becomes a prompt
  (`crates/adapter-claude-code/src/lib.rs:194-216`, `ChunkText.ChunksComeOut`).
- When a grown transcript is read again, known tool results are skipped but their announcements are queued again, so a
  new result can receive an old call's arguments (`Rereading.RereadingMispairs`), though re-ingesting a grown Codex
  rollout is called safe (`crates/adapter-codex/src/lib.rs:22-23`, `RolloutPairing.AGrownRolloutMispairs`). It gets the
  right ones exactly when the oldest waiting arguments are the same with and without the results read before, however
  each reading was closed (`Rereading.ReadingsPairExactlyWhen`, and on the records of a rollout
  `RolloutPairing.RolloutResultsAreFiled`), so always when none of its tool had been read since the session's start
  (`Pairing.NothingUsedBefore`, `RolloutPairing.NothingReadBefore`). The pairing is exact within what one run handles
  (`History.ResultsTakeTheOldestArguments`).
- A session start's marker that is refused when the session's first node has been filed is given up, though one refused
  with a checkpoint waits for the next (`crates/adapter-jsonl/src/lib.rs:518-520` and `687-690`,
  `Refusals.RefusalsCutShort`).
- A Claude Code session whose first complete lines hold no conversation is never announced by the incremental capture
  (`Tail.AnnouncedAtMostOnce`, `Tail.AStartCanGoMissing`), and a result whose call fell into an earlier poll may be
  labelled by the call's id (`TailLabels.ChunksMatchTheWhole`) and finds only its own poll's calls to take arguments
  from (`TailPairing.PollsPairOnTheirOwn`). Where a poll splits no call, that goes wrong only for results before which
  fewer of the poll's results of the tool found nothing than calls were waiting where the poll begins
  (`TailPairing.UnsplitPollsPairExactlyWhen`).
- Two lines of a Claude Code session that share an id are told apart when they fall to two polls, and not in one read
  (`TailIngest.SharedIdsNeedNotConverge`); the day index converges exactly when that leaves nothing out
  (`SharedIds.CaptureFilesTheWholeExactlyWhen`).
- Every run starts with empty sessions, so its first checkpoint of each has no parent: the chain from a latest name,
  which a collection trims, never reaches past the run that moved the name (`Lineages.ChainsEndWithTheirRun`).
- Re-ingesting a grown Aider history is said to be safe (`crates/adapter-aider/src/lib.rs:229-231`). The day index does
  converge (`HistoryIngest.GrowingHistoriesConverge`). But the prompt or answer at the end of the file is emitted as far
  as it is written, under the id its full text will have, and the first record stays: the store keeps the shorter text
  exactly when prompt lines follow a prompt, or prose follows an answer after any number of blank lines
  (`HistoryGrowth.HistoriesExtendExactlyWhen`, `HistoryIngest.TextsAreKeptExactlyWhen`). Read when its last line is
  half written, the day index need not converge either (`HistoryIngest.HalfAHeaderDoesNotConverge`).
- Of the time in an Aider header only the digits of the year are checked (`Histories.HeaderTimesHaveTheirForm`).
- Content without a date of its own is filed under the day it is read, so reading it on two days files it twice
  (`Replay.UndatedContentIsFiledEachDay`).
- Sanitized site names are said to have no trailing hyphen (`crates/core/src/deploy.rs:357-358`); over-long ones can
  (`SiteNames.SanitizedNames`, `SiteNames.ACutNameCanEndInAHyphen`).
- Scoped names are called collision-free (`crates/adapter-jsonl/src/lib.rs:695-696`). They are for ids without a colon
  (`NameStrings.PlainNamesAreApart`); otherwise two names meet exactly when their owners' full names and endings agree,
  or one goes on where the title of the other, a checkpoint, says it does (`NameStrings.NamesMeetExactlyWhen`). Two
  sessions can then overwrite each other's names, even if no id holds `:session:` (`NameStrings.SessionsCanShareAName`,
  `NameStrings.SessionsShareANameExactlyWhen`). The same holds for reading back a namespace
  (`Namespaces.ParseUndoesCanonical`).
- Trimming the checkpoint chain makes the strict walk and the export of the chain's head fail
  (`Gc.TrimmingBreaksTheHead`), and a block stored or imported under another codec than the node codec makes every
  pass refuse to run (`Gc.ImportedCodecsMakePassesRefuse`).

## Model

| member | source | states |
|---|---|---|
| `Ingester.JsonlIngester.Handle` | crates/adapter-jsonl/src/lib.rs:377-554 | one envelope, with any calls refused on the way, leaves exactly the store, session state, report and refusal that `Ingest.Handle` describes: repeats and filed events do nothing, a refusal cuts the event short where it happens; what it files is the subject of `Records` |
| `Ingester.JsonlIngester.Process` | crates/adapter-jsonl/src/lib.rs:404-553 | each kind of event, once it is known to be new, does what `Ingest.Process` says, and so files what `Records.RecordsTellTheirEvents` says it does |
| `Ingester.JsonlIngester.WriteNode` | crates/adapter-jsonl/src/lib.rs:443-553 | a node is stored, becomes the head, is filed under its day and then takes a waiting start marker, in that order, with the report counting only what got through |
| `Ingester.JsonlIngester.WriteCheckpoint` | crates/adapter-jsonl/src/lib.rs:660-693 | nothing without a head; else a node over the head with the last checkpoint as parent, and its names |
| `Ingester.JsonlIngester.BindCheckpoint` | crates/adapter-jsonl/src/lib.rs:677-692 | the scoped names are bound in order up to the first refusal, then the event's marker, then a waiting start marker; the chain moves on only if all went through |
| `Ingester.JsonlIngester.IngestEnvelopes` | crates/adapter-jsonl/src/lib.rs:344-373 | a run handles every envelope in turn, refused ones included, and ends with one roll-up whose failure is a skip under line 0 |
| `Ingest.HandleWrites` | crates/adapter-jsonl/src/lib.rs:377-554 | an envelope writes only under its own (date, key) and its own session's names, writes nothing when it is a repeat or known, and is filed when it is content and nothing was refused |
| `Records.NewRecordsTell` | crates/adapter-jsonl/src/lib.rs:404-553 | on every run, refusals included, an entry new to the day index is filed under the date and key of a content event, at its time, as a node that tells that event, kind by kind and field by field - a prompt for a user's prompt, a response for a model's, and so on - and is stored with the file it refers to |
| `Records.NewContentIsTold` | crates/adapter-jsonl/src/lib.rs:404-553 | and in a clean ingest every new content event is so told: by a node for itself, if no two events share a key |
| `Records.RecordsTellTheirEvents` | crates/adapter-jsonl/src/lib.rs:404-693 | in a clean run of new events the records are, in order, one for each content event, telling it, and one checkpoint, under its own title, for each request or end of a session that has written a node since its start |
| `Records.RecordsAreMarked` | crates/adapter-jsonl/src/lib.rs:626-693 | there the marker of a session's start resolves to the first record after it, and a checkpoint's own to the checkpoint |
| `Records.MarkersAgreeExactlyWhen` | crates/adapter-jsonl/src/lib.rs:626-636 | two events have one marker exactly when they differ in their import provenance at most |
| `Events.DatesAreRead` | crates/adapter-jsonl/src/lib.rs:615-624 | an event is filed under the first ten characters of its timestamp if the fifth is a hyphen, and else under today |
| `Events.KeysAgreeExactlyWhen` | crates/adapter-jsonl/src/lib.rs:564-612 | two events share a key exactly when they have the same id or, both without one, differ in their import provenance at most |
| `Replay.StepFiles` | crates/adapter-jsonl/src/lib.rs:392-402 | the day index changes in one way only: an envelope's own key is filed under its own date |
| `Replay.RunMeets` | crates/adapter-jsonl/src/lib.rs:392-402 | after any run a session has seen exactly the keys it met |
| `Replay.RunFiles` | crates/adapter-jsonl/src/lib.rs:344-402 | no run takes an entry out of the day index; one that skipped nothing adds exactly the entries its content events bring |
| `Replay.ReplayIsANoOp` | crates/adapter-jsonl/src/lib.rs:377-402 | after a run that skipped nothing, ingesting the same events again - under any clock and with any calls refused - writes no node, blob, checkpoint or name and leaves the store, roll-up included, as it was |
| `Replay.TheFirstRecordStays` | crates/adapter-jsonl/src/lib.rs:392-402 | once something is filed under a date and key, no later run puts another record there |
| `Replay.PassesFile` | crates/adapter-jsonl/src/lib.rs:344-402 | after any number of clean passes the day index holds the old entries and what some pass brought |
| `Replay.GrowingTranscriptsConverge` | crates/adapter-jsonl/src/lib.rs:392-402 | clean readings of a transcript, in any order and number, one of them complete, leave the day index exactly as one clean ingest of the whole does, if content has the same date in each |
| `Replay.UndatedContentIsFiledEachDay` | crates/adapter-jsonl/src/lib.rs:615-624 | which undated content need not have: read on two days, it is filed on both |
| `Sessions.SessionsDoNotInterfere` | crates/adapter-jsonl/src/lib.rs:344-554 | in any interleaving, whatever is refused, a session none of whose (date, key) pairs another session shares ends in the state, report share, names and filed records of ingesting it alone, names being data |
| `KeyedRuns.RunsAgree` | crates/adapter-jsonl/src/lib.rs:344-373 | with plain ids, a run that binds strings and looks sessions up by strings leaves just what the run over names leaves |
| `KeyedRuns.PlainSessionsDoNotInterfere` | crates/adapter-jsonl/src/lib.rs:564-709 | so the strings that are a session's names, and its state under its key, are those of ingesting it alone |
| `Sessions.NumberedSessionsAreApart` | crates/adapter-jsonl/src/lib.rs:607-612 | sessions whose event ids are numbered by session share no key |
| `History.StateReflectsLog` | crates/adapter-jsonl/src/lib.rs:281-302 | in a clean run a session's head, last checkpoint and argument queues are those its log of announcements and records stands for, and a head means the start marker has been used |
| `History.NoStartFeedsTwoResults` | crates/adapter-jsonl/src/lib.rs:452-480 | announced arguments are used at most once, in the order they were announced |
| `History.ResultsTakeTheOldestArguments` | crates/adapter-jsonl/src/lib.rs:443-480 | each tool result carries the oldest unused arguments of its tool and session since the last start, every older ones having fed an earlier result, or none if all are used |
| `History.FreshIngestHandlesAllButRepeats` | crates/adapter-jsonl/src/lib.rs:392-402 | in a fresh ingest nothing but repeats is left out of that pairing |
| `Filing.QueueIsBacklog` | crates/adapter-jsonl/src/lib.rs:443-480 | in a clean run over a store that knows a first part of the transcript, a queue holds what waits in the transcript when the results of that part do not count |
| `Filing.NodesAreFiled` | crates/adapter-jsonl/src/lib.rs:397-480 | there all later content is filed as its node, a result with the arguments the transcript gives it when the results of that part do not count |
| `Filing.ReadingsFile` | crates/adapter-jsonl/src/lib.rs:392-480 | however often a transcript is read while it grows, and however each reading is closed, content stays filed as what the first reading that had it made of it |
| `Filing.InOneGo` | crates/adapter-jsonl/src/lib.rs:392-480 | and as the transcript has it when it is read in one go |
| `Rereading.ReadingsPairExactlyWhen` | crates/adapter-jsonl/src/lib.rs:397-451 | for every transcript and every schedule of readings, each closed in any way, a result has the input of a single ingest exactly when the oldest waiting arguments are the same with and without the results read before |
| `Pairing.NothingUsedBefore` | crates/adapter-jsonl/src/lib.rs:397-451 | as they are whenever no result of the tool since the session started had been read before |
| `Pairing.DifferentArgumentsTell` | crates/adapter-jsonl/src/lib.rs:443-451 | and, if all announced arguments differ and none is empty, only if as many wait either way |
| `Rereading.RereadingMispairs` | crates/adapter-jsonl/src/lib.rs:397-451 | the simplest failing case: for every transcript of two calls, one ingest gives the second result the second call's arguments, a re-read after the first half the first call's, with nothing refused |
| `History.CheckpointsFormAChain` | crates/adapter-jsonl/src/lib.rs:660-692 | between session starts the checkpoints form a linked list, oldest without a parent, ending in the one kept in the state; none exists before a node |
| `History.LatestNamesTheLastCheckpoint` | crates/adapter-jsonl/src/lib.rs:695-709 | after a clean run each session's, host's and project's latest name, and `latest`, resolves to the last checkpoint of that scope, and a checkpoint's own name to the last of that session and title, or is as it was, names being data |
| `KeyedRuns.PlainLatestIsTheLastCheckpoint` | crates/adapter-jsonl/src/lib.rs:695-709 | and with plain ids so does the string of that name |
| `Lineages.ChainsEndWithTheirRun` | crates/adapter-jsonl/src/lib.rs:660-692 | after any number of clean runs, what a latest name resolves to is as before them all, or a checkpoint whose whole lineage the last run that moved the name wrote |
| `History.ReportIsTrue` | crates/adapter-jsonl/src/lib.rs:258-272 | on every run, refusals included: record CIDs are as many as nodes and checkpoints counted, and names as many as bindings made |
| `Records.SkipsAreTrue` | crates/adapter-jsonl/src/lib.rs:344-373 | every skip names, in order, a line whose event met with the refusal it gives, or whose file could not be read |
| `Records.FilesAreReported` | crates/adapter-jsonl/src/lib.rs:481-553 | in a clean run the files reported are those the records refer to |
| `Refusals.RefusalsCutShort` | crates/adapter-jsonl/src/lib.rs:377-553 | a refused call leaves the writes the event makes with every call granted, up to the one refused, and of the state nothing new for a checkpoint, and for a node only what was written, used-up arguments and a given-up start marker included |
| `Refusals.NamesInOrder` | crates/adapter-jsonl/src/lib.rs:695-709 | a checkpoint's names are its own, its session's, its host's and its project's latest and the global one, bound in that order |
| `History.ReasoningLeavesNoTrace` | crates/adapter-jsonl/src/lib.rs:377-554 | the nodes and records an event leaves, and for content with an id all it does, are the same whatever reasoning comes with it, unless it is a repeat with the one and not the other; the key depends on the reasoning exactly if there is no id |
| `NameStrings.NamesMeetExactlyWhen` | crates/adapter-jsonl/src/lib.rs:626-709 | two names are one string exactly when their owners' full names and their endings agree, or one owner goes on from a checkpoint name's owner into its title |
| `NameStrings.NamesReadAs` | crates/adapter-jsonl/src/lib.rs:626-709 | a session's names are its host and id, then `checkpoint:` and the title, `latest`, or `event:` and the digest |
| `NameStrings.WideNamesReadAs` | crates/adapter-jsonl/src/lib.rs:695-709 | a host's is `host:`, its id and `:latest`, a project's likewise, and the global one `latest` |
| `NameStrings.PlainNamesAreApart` | crates/adapter-jsonl/src/lib.rs:626-709 | so never, for different names, when host and session ids have no colon |
| `NameStrings.SessionsShareANameExactlyWhen` | crates/adapter-jsonl/src/lib.rs:695-709 | a session shares its latest name with another session exactly when `:session:` stands at another place, overlaps included, in its full name |
| `NameStrings.HostsShareANameExactlyWhen` | crates/adapter-jsonl/src/lib.rs:695-709 | and with a host exactly when the host is called like the session in full |
| `NameStrings.SessionsCanShareAName` | crates/adapter-jsonl/src/lib.rs:695-709 | for which no id need hold that mark |
| `NameStrings.ColonsMeetExactlyWhen` | crates/adapter-jsonl/src/lib.rs:695-709 | sessions that differ by which colon ends the host share a name exactly when the piece between reads the same before and behind `:session` |
| `NameStrings.SessionsShareAKeyExactlyWhen` | crates/adapter-jsonl/src/lib.rs:564-566 | two sessions share a key exactly when one host is the other's followed by the separator and a first piece of its session id |
| `NameStrings.CalendarNamesAreApart` | crates/core/src/binding.rs:1403-1404 | no scoped name or marker is a day, month or year name |
| `Binding.CoreBinding.RecordEventInDay` | crates/core/src/binding.rs:1403-1432 | the day's index gains the entry, is stored, and its name moves to it; nothing else changes |
| `Binding.CoreBinding.Contains` | crates/core/src/binding.rs:1434-1449 | an event is known exactly when the day's latest index has its key |
| `Binding.CoreBinding.GroupDays` | crates/core/src/binding.rs:1451-1466 | days of at least seven characters are grouped under their month, each once, in whatever order they come |
| `Binding.CoreBinding.BindGroups` | crates/core/src/binding.rs:1467-1495 | each group becomes one sorted manifest, stored and bound, until a label cannot be stored, or is stored and cannot be bound |
| `Binding.CoreBinding.RollUpCalendar` | crates/core/src/binding.rs:1451-1498 | the roll-up succeeds exactly when no month or year is refused, and then equals `Store.RollUp`; a refused one leaves some months and years bound, and at most one manifest stored besides |
| `CalendarTier.RollUpIsIdempotent` | crates/core/src/binding.rs:1451-1498 | a second roll-up, even one cut short anywhere, changes nothing |
| `CalendarTier.RollUpIsComplete` | crates/core/src/binding.rs:1451-1498 | every day of at least seven characters is listed by its month's manifest, and the month by its year's; manifests ascend strictly and list nothing else |
| `CalendarTier.RollUpIsLocal` | crates/core/src/binding.rs:1403-1498 | a new entry in a day changes no manifest but its own month's and year's |
| `CalendarTier.ManifestsAreOfTheirKind` | crates/core/src/binding.rs:1467-1495 | a month's manifest is a month node of that label and a year's a year node, stamped with the start of the period |
| `CalendarTier.DaysAreIndexed` | crates/core/src/binding.rs:1403-1432 | a day's name resolves to a stored day node of that date, stamped by the clock, that holds what the day held and the new record under its key |
| `Ordering.ListingIsUnique` | crates/core/src/binding.rs:1467-1495 | the sorted listing of a set of bindings is one and the same whatever order they were collected in |
| `Calendar.CivilFromUnixIsExact` | crates/adapter-continue/src/lib.rs:111-130 | every integer second becomes a valid date and time of day that count back to it |
| `Calendar.CivilOfDaysFromCivil` | crates/core/src/binding.rs:1249-1257 | every valid Gregorian date survives the round trip through its day number |
| `Calendar.DaysAreConsecutive` | crates/core/src/binding.rs:1249-1257 | the next calendar day has the next number, and 1 January 1970 is day zero |
| `Calendar.NextDayOfCivil` | crates/adapter-continue/src/lib.rs:111-130 | successive day numbers are successive dates |
| `Calendar.PeriodOfLabel` | crates/core/src/binding.rs:1263-1268 | the label of a year or month parses to the second it starts |
| `Calendar.PeriodStartsIncrease` | crates/core/src/binding.rs:1263-1268 | later periods start strictly later from January 1970 on |
| `Graph.Walk` | crates/core/src/binding.rs:760-780 | the recursive walk succeeds exactly when every reachable block is live and readable, and then lists exactly the reach, each block once; an error is true: the block it names is in reach and is pruned, unreadable or missing, as it says |
| `Graph.GoodExactlyWhen` | crates/core/src/binding.rs:1328-1352 | a block is good exactly when it is there, under the node codec, hashes to its name and decodes to a record with readable links |
| `Graph.WalkInner` | crates/core/src/binding.rs:760-780 | a visit covers what is newly reached and fails only on something broken in reach |
| `Graph.WalkBatched` | crates/core/src/binding.rs:938-966 | the level-batched walk succeeds on the same roots and lists the same blocks, and its errors are true |
| `Graph.WalkLevel` | crates/core/src/binding.rs:938-966 | one level visits its blocks and finds the links not met before |
| `Graph.GetMany` | crates/core/src/binding.rs:1057-1096 | the batch look-up holds exactly the records the single one finds |
| `Graph.ListingsAgree` | crates/core/src/binding.rs:938-975 | any two listings of a reach have the same blocks, number and bytes |
| `Car.ReadVerified` | crates/core/src/car.rs:46-65 | an archive is read exactly when all its blocks verify; otherwise the first bad one is named |
| `Car.ExportCar` | crates/core/src/binding.rs:896-904 | export succeeds exactly when nothing in reach is broken and holds the reach with the stored bytes |
| `Car.ExportManifest` | crates/core/src/binding.rs:968-975 | the dry run by the other walk succeeds on the same roots |
| `Car.ManifestMatchesArchive` | crates/core/src/binding.rs:896-975 | the dry run's CIDs, their number and bytes are those of the archive |
| `Car.BlockStore.ImportCar` | crates/core/src/binding.rs:1159-1175 | import accepts exactly a verified archive with a root, writes its blocks and binds the name, keeps every block hashing to its CID, and changes nothing when it refuses |
| `Car.BlockStore.StoreVerifiedRawBlock` | crates/core/src/binding.rs:869-894 | a block is stored exactly when it verifies and does not contradict the one already there |
| `Car.RoundTrip` | crates/core/src/binding.rs:896-986 | what one store exports and any other imports has there the same reach and bytes, and nothing in it broken |
| `Gc.CheckpointChain` | crates/mem/src/gc.rs:154-178 | the chain follows parents from the head, without repetition, until it can go no further; it fails exactly when it runs into a block that is no record |
| `Gc.WholeChainIsUnique` | crates/mem/src/gc.rs:154-178 | there is one such chain at most |
| `Gc.WholeIsNotSpoilt` | crates/mem/src/gc.rs:154-178 | and none where a chain runs into a block that is no record |
| `Gc.Mark` | crates/mem/src/gc.rs:187-217 | marking fails exactly on a hole and else keeps exactly the readable blocks reachable from a root without entering the trimmed tail |
| `Gc.Collect` | crates/mem/src/gc.rs:60-149 | a pass trims the unnamed tail of the chain and sweeps what is not kept into the ledger; it refuses exactly for a spoilt chain, a block not hashing to its name under the node codec, or a hole; whenever it succeeds every decision survives with its bytes, and so do the newest n checkpoints of the whole chain, while the others that no name binds are gone, each with a tombstone |
| `Gc.DecisionsSurvive` | crates/mem/src/gc.rs:85-97 | every block in the store that is a decision is kept, with its bytes, whatever the chain and the names |
| `Gc.NewestSurvive` | crates/mem/src/gc.rs:69-83 | of the whole chain, by index, the newest n and the named survive, and the others are gone and in the ledger |
| `Gc.OtherCodecsAreUnsound` | crates/mem/src/gc.rs:85-94 | in a store whose blocks hash to their names the second is exactly a block under another codec |
| `Gc.ImportedCodecsMakePassesRefuse` | crates/core/src/binding.rs:869-894 | so that importing or storing one such block makes every pass refuse |
| `Gc.DanglingLinksAreAccountedFor` | crates/mem/src/gc.rs:187-217 | links a pass leaves dangling lead to a trimmed checkpoint or to a block pruned before |
| `Gc.WalksAfterCollection` | crates/core/src/binding.rs:760-780 | after a pass the core walk of a kept root works exactly when it reached nothing trimmed, and then finds the same blocks |
| `Gc.TrimmingBreaksTheHead` | crates/core/src/binding.rs:760-780 | so once anything is trimmed the walk of the chain's own head fails |
| `Capabilities.AcceptedExactly` | crates/core/src/capability.rs:281-340 | the recursive verdict is favourable exactly when the line of grants up to the first root-issued one is sound, in force and not revoked, and each parent on it is delegable, holds the right to grant, has the child's issuer as its subject, is of its network and scope, holds all its operations and does not end before it |
| `Capabilities.RefusalsAreTrue` | crates/core/src/capability.rs:201-340 | a refusal names a fault that the first faulty link up the line has, and every link below that one is sound, in force, unrevoked and delegated |
| `Capabilities.IssuedAsAsked` | crates/core/src/capability.rs:153-183 | what is issued is signed and says what was asked for, ending its time to live later or with the last second there is |
| `Capabilities.AuthorizesExactly` | crates/core/src/capability.rs:126-196 | a grant authorizes the operations it lists, on its network, everywhere or in its very scope |
| `Capabilities.AuthorityIsNeverAmplified` | crates/core/src/capability.rs:201-340 | whatever capabilities are issued by anyone, one accepted with any chain of them authorizes nothing its root-issued ancestor on the line does not; every ancestor used has at least its operations and covers its namespace |
| `Capabilities.ValidityInterval` | crates/core/src/capability.rs:281-340 | the accepted instants are none, or exactly from the latest issue on the line to the capability's own expiry |
| `Capabilities.RevocationIsExact` | crates/core/src/capability.rs:281-340 | more revocations reject a capability exactly when they touch a subject or issuer on its line |
| `Capabilities.BeyondTheRootIsIgnored` | crates/core/src/capability.rs:281-340 | what follows the first root-issued capability in a chain does not matter |
| `Namespaces.ParseUndoesCanonical` | crates/core/src/capability.rs:91-121 | parsing undoes printing exactly for network ids without a colon |
| `Namespaces.CanonicalUndoesParse` | crates/core/src/capability.rs:91-121 | printing undoes parsing |
| `Namespaces.ParsersAgree` | crates/cli/src/network_commands.rs:130-149 | the command line's parser agrees with the other on every scope but `all` |
| `Namespaces.CanonicalForms` | crates/core/src/capability.rs:91-102 | how each kind of namespace is written |
| `Codex.Translate` | crates/adapter-codex/src/lib.rs:232-368 | the translator's loop computes `Codex.Translation`, record by record |
| `Codex.Emit.Append` | crates/adapter-codex/src/lib.rs:208-225 | an emission is numbered by its place and carries its own provenance |
| `Codex.Emit.AppendPatch` | crates/adapter-codex/src/lib.rs:335-359 | a patch is every file it wrote, in order, then its result |
| `RolloutText.RolloutsComeOut` | crates/adapter-codex/src/lib.rs:232-368 | what comes out of any rollout, whatever the translator remembers, is in order a prompt for each message of the user, an answer for each of the assistant, a call, a result, the edits of a patch and then its result, a start of session, each with the fields of its record and at its time; and at the end, exactly if a session began, that it ended |
| `RolloutText.EventsAreCodexs` | crates/adapter-codex/src/lib.rs:208-225 | every event names its host, its session, its place and where it came from |
| `RolloutText.EventsBelongToRecords` | crates/adapter-codex/src/lib.rs:208-368 | every event but the last belongs to a record, and carries its time and the project of the latest session record |
| `RolloutText.ProjectIsTheLastComponent` | crates/adapter-codex/src/lib.rs:180-189 | a project is the last component of the working directory, whatever slashes follow it |
| `Rollouts.TranslationsAreSessions` | crates/adapter-codex/src/lib.rs:208-368 | a translation is one session numbered without a gap, and ends with its end exactly when some record began it |
| `Rollouts.TranslationsGrow` | crates/adapter-codex/src/lib.rs:232-368 | the translation of a longer rollout extends that of a shorter one minus its closing event |
| `Rollouts.ResultsAreNamedByTheirCalls` | crates/adapter-codex/src/lib.rs:294-334 | a result is labelled by the latest earlier call with its id |
| `Rollouts.ReasoningGoesToTheNextAnswer` | crates/adapter-codex/src/lib.rs:269-293 | reasoning is attached to answers only: the one given since the message before |
| `Rollouts.GrowingRolloutsConverge` | crates/adapter-codex/src/lib.rs:370-395 | a rollout ingested cleanly as often as one likes while it grows, over any days, leaves the day index one ingest of the whole leaves |
| `RolloutPairing.WaitsAtResult` | crates/adapter-codex/src/lib.rs:294-359 | what waits for a result in a translation is what waits in the records before it |
| `RolloutPairing.RolloutResultsAreFiled` | crates/adapter-codex/src/lib.rs:370-395 | but the result of a record is filed with the oldest arguments that wait in the records before it when the results before the pass that found it do not count, and by one ingest of the whole with the oldest that wait when all do |
| `RolloutPairing.NothingReadBefore` | crates/adapter-codex/src/lib.rs:294-359 | which are the same if no result of its tool, since the session began, is among the records read before |
| `RolloutPairing.AGrownRolloutMispairs` | crates/adapter-codex/src/lib.rs:294-359 | and not for a rollout of two calls ingested after the first and again at its end, with nothing refused |
| `Rollouts.RolloutsAreApart` | crates/adapter-codex/src/lib.rs:208-225 | any interleaving of rollouts keeps their keys apart |
| `Fields.Cap` | crates/adapter-codex/src/lib.rs:50-59 | the cap keeps as many whole characters as fit in 8192 bytes, and no more |
| `Fields.CharsReadBack` | crates/adapter-codex/src/lib.rs:50-59 | a character is read back from the bits its bytes carry |
| `ClaudeCode.SessionXlate.TranslateLine` | crates/adapter-claude-code/src/lib.rs:164-279 | a line of conversation adds the session's start if none was made, then its events, labelled by the calls known so far |
| `ClaudeCode.TranslateChunk` | crates/adapter-claude-code/src/lib.rs:131-162 | a chunk is its start if it is to announce one, its events, and a request for a checkpoint; nothing if no line is conversation |
| `ChunkText.ChunksComeOut` | crates/adapter-claude-code/src/lib.rs:131-279 | what comes out of any lines is the start of the first one's session, if announced, then line by line at its time the user's plain text as a prompt or the assistant's as an answer, or the text blocks joined to one answer unless that is blank, followed by the calls and results in the order of their blocks; and then the request for a checkpoint |
| `ChunkText.EventsOfALine` | crates/adapter-claude-code/src/lib.rs:164-279 | a line's events name their host, session, place and origin, and its thinking, joined, rides on the first |
| `ChunkText.IdsOfALine` | crates/adapter-claude-code/src/lib.rs:328-335 | a line is named by its own id or by its session, time and speaker |
| `ChunkText.LinesAreParsed` | crates/adapter-claude-code/src/lib.rs:371-397 | a text is read line by line, each parsed by itself |
| `ClaudeCode.ReadFromOffset` | crates/adapter-claude-code/src/lib.rs:371-397 | a poll takes the complete lines past the offset, or all of them if the file has shrunk, and moves on by exactly those |
| `Tail.ShrunkFilesAreReadAfresh` | crates/adapter-claude-code/src/lib.rs:366-397 | a file shorter than the offset is read from its beginning and announced again |
| `Watcher.CaptureLoop.CaptureOnce` | crates/adapter-claude-code/src/lib.rs:405-422 | a pass hands on every readable file in the order listed; over all passes what is handed on of a file is what its own readable polls find, whatever happened to the others |
| `Tail.TextsAreContiguous` | crates/adapter-claude-code/src/lib.rs:371-397 | what the polls took is together the file up to the offset, which is at the end of a line |
| `Tail.EveryLineOnce` | crates/adapter-claude-code/src/lib.rs:371-397 | for any schedule of appends and polls every complete line is translated once, in order |
| `TailLabels.ChunksMatchTheWhole` | crates/adapter-claude-code/src/lib.rs:131-279 | the polls' events are those of one whole read but for the labels of some tool results, and altogether the same exactly when no chunk has the result of a call known only to an earlier chunk by a name other than its id |
| `TailLabels.LabelsNameTheLatestCall` | crates/adapter-claude-code/src/lib.rs:218-247 | in one read a result is labelled by the latest call with its id, or by the id |
| `Tail.AnnouncedAtMostOnce` | crates/adapter-claude-code/src/lib.rs:131-146 | the session is announced at most once, first of all, and exactly when the first complete lines found hold conversation |
| `Tail.AStartCanGoMissing` | crates/adapter-claude-code/src/lib.rs:366-389 | so it is never announced when they do not, whatever is appended later |
| `Tail.WholeReadsAnnounce` | crates/adapter-claude-code/src/lib.rs:124-146 | though a whole read announces it whenever there is conversation |
| `TailIngest.CaptureFilesTheWhole` | crates/adapter-claude-code/src/lib.rs:371-422 | for any schedule, over any days, the day index after clean captures is the one a clean ingest of the whole file leaves, if no two lines share an id |
| `TailIngest.SharedIdsNeedNotConverge` | crates/adapter-claude-code/src/lib.rs:164-180 | lines that share an id: a text behind a call is filed by polls that divide them and not by one read |
| `SharedIds.CaptureFilesTheWholeExactlyWhen` | crates/adapter-claude-code/src/lib.rs:371-422 | for any lines, over a store that knows none of their entries, clean captures and one clean ingest of the file leave the same entries exactly when whatever content is first with its id in a poll has an entry whose id some session brings first as content of that date |
| `TailPairing.PollsPairOnTheirOwn` | crates/adapter-claude-code/src/lib.rs:405-422 | content stays filed as its own poll makes it: a result has the oldest unused arguments among the calls of its own poll |
| `ChunkPairing.UnsplitChunksPairExactlyWhen` | crates/adapter-claude-code/src/lib.rs:131-279 | in a chunk that splits no call a result has the arguments it has in the whole if as many results of its tool found nothing before it in the chunk as calls were waiting where the chunk begins and, where arguments can be told apart, only then |
| `TailPairing.CapturePairsExactlyWhen` | crates/adapter-claude-code/src/lib.rs:371-422 | every content event of a poll has its event in the whole, and is stored as one clean ingest of the file stores it exactly unless it is a result that, read off the lines of its poll alone, has another label or other arguments than read off all lines |
| `TailPairing.UnsplitPollsPairExactlyWhen` | crates/adapter-claude-code/src/lib.rs:371-422 | so a poll that splits no call stores what one ingest stores but for the results that found fewer unmet ones before them than calls were waiting |
| `Aider.Xlate.Line` | crates/adapter-aider/src/lib.rs:172-214 | a line does to the translator's buffers, session and output what `Aider.OnLine` says |
| `Aider.Xlate.OpenSession` | crates/adapter-aider/src/lib.rs:153-163 | a new session flushes, ends the one before, and starts numbering anew |
| `Aider.Xlate.End` | crates/adapter-aider/src/lib.rs:216-227 | the end of the file flushes and asks for a checkpoint if there is a session |
| `Aider.Translate` | crates/adapter-aider/src/lib.rs:71-78 | the whole history is translated line by line |
| `HistoryParagraphs.ParagraphsComeOut` | crates/adapter-aider/src/lib.rs:80-227 | what comes out of any history is, word for word and in the order of the file, a prompt for each run of prompt lines, an answer, trimmed, for each run of prose and the blank lines in it, and each edit; blank prompts and answers are left out |
| `HistoryLines.HeaderLines` | crates/adapter-aider/src/lib.rs:172-214 | a line that begins so, behind any white space, is a header |
| `HistoryLines.PromptLines` | crates/adapter-aider/src/lib.rs:172-214 | four hashes, and one space if there is one, make a prompt of the rest |
| `HistoryLines.EditLines` | crates/adapter-aider/src/lib.rs:172-214 | a quoted line that says so is an edit of the path it names |
| `HistoryLines.ConsoleLines` | crates/adapter-aider/src/lib.rs:172-214 | any other quoted line is the console's |
| `HistoryLines.OtherLines` | crates/adapter-aider/src/lib.rs:172-214 | anything else is a gap if blank and prose if not |
| `HistoryLines.EventsAreAtTheirHeadersTimes` | crates/adapter-aider/src/lib.rs:105-163 | every event is Aider's, says where it came from, and is of the k-th session and at the time of the k-th header, or of a session opened without one |
| `Aider.IsoTs` | crates/adapter-aider/src/lib.rs:45-66 | any header text becomes a text of the length of a time, with its separators between year, month, day and hour |
| `Histories.HeaderTimesAreKept` | crates/adapter-aider/src/lib.rs:45-66 | the times Aider writes, with or without seconds, are kept, and finer ones to the second |
| `Histories.OtherHeadersAreAtTheEpoch` | crates/adapter-aider/src/lib.rs:45-66 | a header without the length, the separators and the year of a time is at the epoch |
| `Histories.HeaderTimesHaveTheirForm` | crates/adapter-aider/src/lib.rs:45-66 | and have the form of RFC 3339 exactly when the header's date and time have theirs |
| `Histories.HistoriesAreSessions` | crates/adapter-aider/src/lib.rs:80-227 | a history becomes well-bracketed sessions, consecutively numbered under distinct names, without two equal ids, closed by one request for a checkpoint; a prompt never waits while an answer does |
| `HistoryText.NothingIsLost` | crates/adapter-aider/src/lib.rs:105-227 | but for white space, the prompts and answers that come out are the prompt lines and the lines of prose that went in, and every edit is reported once, each in order |
| `Histories.SessionNamesAreDistinct` | crates/adapter-aider/src/lib.rs:153-163 | session names are apart within a history and between histories |
| `Histories.HistoryEvents` | crates/adapter-aider/src/lib.rs:105-125 | every event is numbered by its own session |
| `Histories.HistoriesAreDated` | crates/adapter-aider/src/lib.rs:45-66 | every event has a date of its own |
| `Histories.HistoriesGrow` | crates/adapter-aider/src/lib.rs:71-227 | what was emitted before the end of the file stays when lines are appended |
| `HistoryGrowth.PromptComesNext` | crates/adapter-aider/src/lib.rs:127-145 | a prompt waiting at the end of the lines read so far comes next, whatever follows, with the prompt lines that follow it |
| `HistoryGrowth.AnswerComesNext` | crates/adapter-aider/src/lib.rs:136-145 | and so does an answer, trimmed, with the prose and blank lines that follow it |
| `HistoryGrowth.ContentKeepsItsPlace` | crates/adapter-aider/src/lib.rs:71-227 | content keeps its place, id and time in every longer history, and its text unless it was the last prompt or answer and goes on |
| `HistoryGrowth.HistoriesExtendExactlyWhen` | crates/adapter-aider/src/lib.rs:71-227 | the prompts, answers and edits of a history are the first of those of a longer one exactly when its last prompt or answer does not go on |
| `HistoryIngest.GrowingHistoriesConverge` | crates/adapter-aider/src/lib.rs:229-254 | a history ingested cleanly as often as one likes while it grows by whole lines leaves the day index one ingest of the whole leaves |
| `HistoryIngest.HalfAHeaderDoesNotConverge` | crates/adapter-aider/src/lib.rs:229-254 | which one read in the middle of a header line need not: the piece is filed as an answer under the key of the end of session the header brings |
| `HistoryIngest.TextsAreKeptExactlyWhen` | crates/adapter-aider/src/lib.rs:229-254 | but of a prompt or answer the store keeps what one ingest of the whole keeps exactly unless it was last when first read and has gone on since |
| `HistoryIngest.HistoriesAreApart` | crates/adapter-aider/src/lib.rs:105-125 | any interleaving of histories keeps their keys apart |
| `EventIds.IdsAreDistinct` | crates/adapter-codex/src/lib.rs:208-225 | numbered ids are equal only for the same source and number |
| `EventIds.DecimalsReadBack` | crates/adapter-codex/src/lib.rs:208-225 | a number is written in decimal without leading zeros |
| `Text.JoinedAreLines` | crates/adapter-aider/src/lib.rs:127-145 | joined parts are the lines of the text, in order |
| `Text.TrimCuts` | crates/adapter-aider/src/lib.rs:136-145 | trimming takes away the white space around a text and nothing else |
| `SiteNames.Collapse` | crates/core/src/deploy.rs:345-347 | the replace loop terminates and computes the cap on runs |
| `SiteNames.RunsAreCapped` | crates/core/src/deploy.rs:333-347 | which turns each maximal run of k hyphens into min(k, n) and nothing else |
| `SiteNames.Sanitize` | crates/core/src/deploy.rs:333-393 | the three sanitizers, step by step |
| `SiteNames.SanitizedNames` | crates/core/src/deploy.rs:333-393 | the result is non-empty, within the length, in the alphabet, without long runs or a leading separator; it is a valid name exactly when the cut does not fall just behind a separator |
| `SiteNames.VercelNames` | crates/core/src/deploy.rs:333-356 | the valid names of Vercel, in full |
| `SiteNames.CloudflareAndNetlifyNames` | crates/core/src/deploy.rs:357-393 | those of Cloudflare and Netlify |
| `SiteNames.CharactersAreReplaced` | crates/core/src/deploy.rs:333-393 | between letters, a character becomes its lower case if the platform allows that, and else a hyphen |
| `SiteNames.NothingIsASite` | crates/core/src/deploy.rs:333-393 | a name of nothing but hyphens is called `site` |
| `SiteNames.ValidNamesAreTheFixedPoints` | crates/core/src/deploy.rs:333-393 | the names returned unchanged are exactly the valid ones |
| `SiteNames.ACutNameCanEndInAHyphen` | crates/core/src/deploy.rs:357-376 | and an over-long clean name can come out ending in a hyphen |
| `Percent.UrlEncode` | crates/core/src/deploy.rs:1085-1096 | the loop computes `Percent.Encode` |
| `Percent.UnreservedInFull` | crates/core/src/deploy.rs:1085-1096 | the characters that encode to themselves are the ASCII letters, digits and four marks |
| `Percent.UrlDecode` | crates/cli/src/main.rs:1236-1264 | the index-driven loop computes `Percent.Decode` |
| `Percent.SpellingsAreRead` | crates/cli/src/main.rs:1236-1264 | a text of characters that stand for themselves, plus signs for spaces and triplets of either case is read as the bytes it spells |
| `Percent.StrayPercentStays` | crates/cli/src/main.rs:1236-1264 | and a percent sign without two hexadecimal digits behind it stands for itself |
| `Percent.DecodeUndoesEncode` | crates/cli/src/main.rs:1236-1264 | decoding undoes encoding on every byte string |
| `Percent.EncodedIsCanonical` | crates/core/src/deploy.rs:1085-1096 | encoded text has only unreserved characters and upper-case triplets of others |
| `Percent.EncodeUndoesDecode` | crates/core/src/deploy.rs:1085-1096 | and such texts are exactly those that encoding their value gives back |
| `Batches.SendInBatches` | crates/core/src/deploy.rs:1196-1211 | uploads go out in order, none dropped, each request within the limit unless one file alone exceeds it, and none closed early |
| `Batches.PackingIsUnique` | crates/core/src/deploy.rs:1196-1211 | which fixes the requests completely |

## Left out

- HTTP, OAuth, sockets, subprocesses, the GUI and the deploy flows around the algorithms above: input and output.
- Cryptography, JSON, the framing of archives, the trie behind the day index, SHA-256 and FNV: abstract, as above.
- Membership, key rotation and egress rules: roots and revocations are given as sets.
- The gemini, cline, copilot, cursor, continue, openclaw, opendevin, antigravity and hermes translators, apart from the
  calendar and the field cap: they repeat the pattern of the Codex one.
- Directory discovery, file metadata, the seeding of offsets, debouncing and sleeps in the adapters.
- The media-type table, Unicode lower-casing, and the overflow of 64-bit integers.
- `SiteDeployPlan::from_files`, configuration, contacts, connectors and the context compiler: single-step members.
- The time and the successor a tombstone records, and the counters of a collection's report.
- Ingester.JsonlIngester.WriteNode: does not model a refusal between storing a day's index and binding it, which leaves
  that index node unbound in the store; a refused call to file an event changes nothing.
- TailIngest.CaptureFilesTheWhole: takes lines to have distinct ids, the common case of
  SharedIds.CaptureFilesTheWholeExactlyWhen, which takes any.
- HistoryIngest.GrowingHistoriesConverge: takes histories to grow by whole lines, as Aider appends them.
- Batches.SendInBatches: does not model a refused request, because the first one ends the deployment.
- Graph.Walk: does not say which of several broken blocks is reported, because the two walks meet them in different
  orders.
