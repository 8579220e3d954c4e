/** The host-neutral wire events and their routing envelope (crates/core/src/event.rs). */
module Events {
  import opened Basics

  datatype Event =
    | SessionStarted(cwd: Option<string>)
    | UserPrompt(text: string)
    | ModelResponse(text: string)
    | ToolCallStarted(tool: string, argsJson: Option<string>)
    | ToolCallFinished(tool: string, ok: bool, resultJson: Option<string>)
    | FileRead(path: string)
    | FileWritten(path: string)
    | DecisionRecorded(text: string)
    | MemoryRecorded(text: string)
    | CheckpointRequested(title: Option<string>)
    | SessionEnded
  {
    /** The events that become a node of their own. */
    predicate IsContent() {
      UserPrompt? || ModelResponse? || ToolCallFinished? || FileRead? || FileWritten? ||
      DecisionRecorded? || MemoryRecorded?
    }

    predicate IsFile() {
      FileRead? || FileWritten?
    }
  }

  /** Events that ask for a checkpoint, and what it is called. */
  function CheckpointTitle(e: Event): Option<string> {
    match e
    case CheckpointRequested(title) => Some(if title.Some? then title.value else "checkpoint")
    case SessionEnded => Some("session-ended")
    case _ => None
  }

  datatype ReasoningSource = Thinking | InlinePreamble

  datatype Reasoning = Reasoning(text: string, source: ReasoningSource)

  datatype ImportedFrom = ImportedFrom(sourceSystem: string, originalId: string, originalTs: string)

  datatype Envelope = Envelope(
    hostId: string,
    sessionId: string,
    projectId: Option<string>,
    eventId: Option<string>,
    ts: string,
    importedFrom: Option<ImportedFrom>,
    reasoning: Option<Reasoning>,
    event: Event)

  /** A session is identified by its host and its own id. */
  datatype SessionKey = SessionKey(host: string, session: string)

  function SessionOf(env: Envelope): SessionKey {
    SessionKey(env.hostId, env.sessionId)
  }

  /** The fingerprint serialises everything but the import provenance, so it is modelled as
      the stripped envelope itself. */
  function Fingerprint(env: Envelope): Envelope {
    env.(importedFrom := None)
  }

  /** The idempotency key: the caller's id, or else the fingerprint. The two families never meet. */
  datatype EventKey = ById(id: string) | ByFingerprint(fingerprint: Envelope)

  function KeyOf(env: Envelope): EventKey {
    match env.eventId
    case Some(id) => ById(id)
    case None => ByFingerprint(Fingerprint(env))
  }

  /** The UTC day an event is filed under: the date part of its timestamp, or today. */
  function DateOf(env: Envelope, today: string): string {
    if |env.ts| >= 10 && env.ts[4] == '-' then env.ts[..10] else today
  }

  predicate Dated(env: Envelope) {
    |env.ts| >= 10 && env.ts[4] == '-'
  }

  /** The date is the first ten characters of a timestamp with a hyphen in fifth place, and otherwise today's. */
  lemma DatesAreRead(env: Envelope, today: string, date: string, rest: string)
    ensures |date| == 10 && date[4] == '-' && env.ts == date + rest ==> DateOf(env, today) == date
    ensures |env.ts| < 10 || env.ts[4] != '-' ==> DateOf(env, today) == today
  {
  }

  /** Two events share a key exactly when they have the same id or, both without one, agree in everything but their
      import provenance. */
  lemma KeysAgreeExactlyWhen(a: Envelope, b: Envelope)
    ensures KeyOf(a) == KeyOf(b) <==>
            || (a.eventId.Some? && a.eventId == b.eventId)
            || (&& a.eventId.None? && b.eventId.None? && a.hostId == b.hostId && a.sessionId == b.sessionId
                && a.projectId == b.projectId && a.ts == b.ts && a.reasoning == b.reasoning && a.event == b.event)
  {
    if a.eventId.None? && b.eventId.None? && KeyOf(a) == KeyOf(b) {
      var x, y := Fingerprint(a), Fingerprint(b);
      assert x.hostId == y.hostId && x.sessionId == y.sessionId && x.projectId == y.projectId;
      assert x.ts == y.ts && x.reasoning == y.reasoning && x.event == y.event;
    }
  }
}
