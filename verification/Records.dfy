/** The durable records of one agent: envelopes, the compaction and the agent itself. */
module Records {

  datatype Option<+T> = None | Some(value: T)

  /** A point in time; 0 is the zero time, which precedes every other one. */
  type Time = nat

  /** Envelope identities. Each constructor stands for one of the prefixes the program
      gives the IDs it derives itself; `Message` is a sender's fresh ID. */
  datatype EnvelopeID =
    | Message(number: nat)
    | ResumeNote(compaction: nat)
    | FailureNote(compaction: nat)
    | BandNote(sequence: nat)

  datatype SenderKind = AgentSender | OutsideSender | RegisteredSender | SelfDeclaredSender | GanglineSender | PeerSender

  datatype Sender = Sender(kind: SenderKind, name: string)

  datatype Purpose = Ordinary | Resume | Startup | Assignment | Clear

  datatype Outcome = NoOutcome | Accepted | Delivered | Failed | Unverified | Cancelled

  datatype Envelope = Envelope(
    id: EnvelopeID, token: nat, recipient: nat, to: string, from: Sender, message: string,
    purpose: Purpose, createdAt: Time, notBefore: Time, notAfter: Time,
    sections: bool, pasteOnly: bool, measured: bool,
    stamp: Option<set<EnvelopeID>>, outcome: Outcome, reason: string)

  datatype CompactionStatus = Queued | Submitted | Completed | CompactionFailed | CompactionUnverified

  datatype Compaction = Compaction(
    id: nat, resume: string, resumeFrom: Sender, startedAt: Time, deadline: Time,
    status: CompactionStatus, continuation: bool, resumeToken: Option<nat>, resumeAdmitted: bool,
    completedAt: Time, reason: string, recovered: bool)

  datatype Capacity = Capacity(
    fingerprint: string, evidence: string, deadline: Time, nextAt: Time, attempts: nat, submitted: bool)

  const NO_CAPACITY := Capacity("", "", 0, 0, 0, false)

  /** What the owner was typing when it saved its intent. */
  datatype Intent =
    | EnvelopeInput(envelope: EnvelopeID)
    | CompactionInput(compaction: nat)
    | RecoveryInput(compaction: nat)
    | InterruptInput(key: nat)

  /** Crossing notes not yet settled, and whether queued ones predate a context reset. */
  datatype BandState = BandState(pending: seq<Envelope>, discardQueued: bool, sequence: nat)

  datatype Directory = New | Cur | FailedDir

  datatype ResultRef = ResultRef(id: EnvelopeID, directory: Directory)

  datatype Status = Starting | Booting | Active | Dropping | AgentFailed

  datatype Activity = Unknown | Idle | Busy | Compacting | Interrupting | Blocked | Wedged

  datatype Agent = Agent(
    id: nat, name: string, pane: string, status: Status, activity: Activity, evidence: string,
    bootDeadline: Time, promptNoticedAt: Time, changedAt: Time,
    interruptAt: Time, interruptDeadline: Time,
    submittedAt: Time, finishedAt: Time, confirmedCompactedAt: Time,
    input: Option<Intent>, compaction: Option<Compaction>, capacity: Capacity, bands: BandState,
    lastAccepted: Option<EnvelopeID>, lastDelivered: Option<EnvelopeID>, lastFailed: Option<EnvelopeID>,
    cleanup: Option<ResultRef>)

  predicate IsBandNotice(e: Envelope) {
    e.from.kind == GanglineSender && e.from.name == "context-band"
  }

  predicate IsStartup(e: Envelope) {
    e.purpose == Startup || e.purpose == Assignment || e.purpose == Clear
  }

  /** A resume note holds every later message behind it. */
  predicate IsResume(e: Envelope) {
    e.purpose == Resume || (e.from.name == "compact" && e.id.ResumeNote?)
  }

  /** The untouched, unsubmitted continuation whose compaction has finished. */
  predicate CompletedResume(a: Agent, e: Envelope) {
    && a.compaction.Some?
    && var c := a.compaction.value;
    && c.status == Completed && c.completedAt > c.startedAt
    && c.continuation && !c.resumeAdmitted && c.resumeToken.Some?
    && e.id == ResumeNote(c.id) && e.token == c.resumeToken.value
    && e.recipient == a.id && e.to == a.name && e.from == c.resumeFrom
    && e.message == c.resume && e.purpose == Resume && e.outcome == NoOutcome && e.reason == ""
    && !e.sections && !e.pasteOnly && !e.measured && e.notBefore == 0 && e.notAfter == 0
  }
}
