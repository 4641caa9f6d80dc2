/** What survives a crash of the delivery protocol, and the invariant every durable write keeps.

    `Disk` is one agent's inbox and saved record. `World` is what happened outside the program:
    which envelopes got the submit key, which inbox links were made, which compactions were requested,
    admitted, seen failed, and replaced by a request while their resume note was queued, and which
    resume notes are known to be stranded. A process may stop after any single write, so the invariant
    is stated on the disk alone and never mentions the process's own variables. */
module DeliveryState {
  import opened Records

  /** An inbox file: the directory it lies in and the envelope it holds. */
  datatype File = File(dir: Directory, envelope: Envelope)

  /** No step ever leaves two files of one envelope, so the inbox maps each identity to its
      one file. */
  datatype Disk = Disk(files: map<EnvelopeID, File>, agent: Agent)

  datatype World = World(
    typed: multiset<EnvelopeID>, links: multiset<EnvelopeID>,
    compactions: set<nat>, admissions: multiset<nat>, dead: set<nat>, stranded: set<EnvelopeID>,
    replaced: set<nat>)

  /** History is never taken back, and what is stranded gets no key press. */
  ghost predicate Grows(w: World, x: World) {
    || w == x
    || (w.typed <= x.typed && w.links <= x.links && w.compactions <= x.compactions
        && w.admissions <= x.admissions && w.dead <= x.dead && w.stranded <= x.stranded
        && w.replaced <= x.replaced
        && forall id <- w.stranded :: x.typed[id] == w.typed[id])
  }

  predicate In(d: Disk, id: EnvelopeID, dir: Directory) {
    id in d.files && d.files[id].dir == dir
  }

  /** An atomic write of an envelope into `new`. */
  function Put(d: Disk, e: Envelope): Disk
    requires e.id !in d.files || d.files[e.id].dir == New
  {
    d.(files := d.files[e.id := File(New, e)])
  }

  /** Removing the envelope's file from `dir`; absence is not an error. */
  function Remove(d: Disk, id: EnvelopeID, dir: Directory): Disk {
    if In(d, id, dir) then d.(files := d.files - {id}) else d
  }

  /** A rename of the envelope's file into another inbox directory. */
  function Move(d: Disk, id: EnvelopeID, dir: Directory): Disk
    requires id in d.files
  {
    d.(files := d.files[id := d.files[id].(dir := dir)])
  }

  predicate Holds(a: Agent, id: EnvelopeID) {
    a.input == Some(EnvelopeInput(id))
  }

  /** A resume note whose compaction failed or was replaced: no later drain types it. */
  predicate Abandoned(a: Agent, id: EnvelopeID) {
    id.ResumeNote? &&
    !(a.compaction.Some? && a.compaction.value.id == id.compaction && a.compaction.value.status != CompactionFailed)
  }

  ghost predicate Named(a: Agent, id: EnvelopeID, dir: Directory) {
    || a.cleanup == Some(ResultRef(id, dir))
    || (dir == Cur && (a.lastAccepted == Some(id) || a.lastDelivered == Some(id)))
    || (dir == FailedDir && a.lastFailed == Some(id))
  }

  /** A cancelled continuation: the one kind of receipt that may stay without a name. */
  ghost predicate CancelledResume(e: Envelope) {
    e.id.ResumeNote? && e.outcome == Cancelled
  }

  /** A continuation that was not entered with its compaction: it may be queued, and no more. */
  predicate Unentered(a: Agent, id: EnvelopeID) {
    && id.ResumeNote? && a.compaction.Some? && a.compaction.value.id == id.compaction
    && a.compaction.value.status != CompactionFailed && !a.compaction.value.continuation
  }

  /** A queued resume note that nothing will ever type: its compaction failed or was replaced. */
  predicate Marooned(d: Disk, id: EnvelopeID) {
    In(d, id, New) && Abandoned(d.agent, id) && !Holds(d.agent, id)
  }

  ghost predicate Labelled(id: EnvelopeID, f: File, w: World) {
    && f.envelope.id == id
    && (id.ResumeNote? ==> f.envelope.purpose == Resume && f.envelope.notBefore == 0 && f.envelope.notAfter == 0)
    && (IsBandNotice(f.envelope) ==> id.BandNote?)
    && w.links[id] > 0
  }

  /** A queued envelope whose latest publication was already typed is held by the saved intent or
      is an abandoned resume note; every receipt is named by the record, held by its
      intent, or a cancelled continuation. */
  ghost predicate Placed(id: EnvelopeID, f: File, a: Agent, w: World) {
    match f.dir
    case New => w.typed[id] < w.links[id] || Holds(a, id) || Abandoned(a, id)
    case Cur => Named(a, id, Cur) || Holds(a, id)
    case FailedDir => Named(a, id, FailedDir) || Holds(a, id) || CancelledResume(f.envelope)
  }

  /** A delivered envelope is back in `new` only while it is held; a continuation that was not
      entered has no result; only one whose compaction failed is cancelled; one that is marooned had
      its compaction failed or replaced; and one known to be marooned stays so. */
  ghost predicate Traced(id: EnvelopeID, f: File, a: Agent, w: World) {
    && (f.dir == New && f.envelope.outcome == Delivered ==> Holds(a, id))
    && (Unentered(a, id) ==> f.dir == New)
    && (id.ResumeNote? && f.envelope.outcome == Cancelled ==> id.compaction in w.dead)
    && (f.dir == New && Abandoned(a, id) && !Holds(a, id) ==> id.compaction in w.dead || id.compaction in w.replaced)
    && (id in w.stranded ==> f.dir == New && Abandoned(a, id) && !Holds(a, id))
  }

  ghost predicate FileSound(id: EnvelopeID, f: File, a: Agent, w: World) {
    Labelled(id, f, w) && Placed(id, f, a, w) && Traced(id, f, a, w)
  }

  ghost predicate Filed(d: Disk, w: World) {
    && (forall id <- d.files :: FileSound(id, d.files[id], d.agent, w)) && w.stranded <= d.files.Keys
    && forall c <- w.replaced :: ResumeNote(c) in w.stranded
  }

  /** Each publication is typed at most once, and only a band note is ever published again. */
  ghost predicate Counted(w: World) {
    && (forall id :: w.typed[id] <= w.links[id])
    && (forall id: EnvelopeID :: !id.BandNote? ==> w.links[id] <= 1)
    && (forall c :: w.links[ResumeNote(c)] > 0 || w.links[FailureNote(c)] > 0 ==> c in w.compactions)
    && (forall c :: w.admissions[c] <= 1)
    && (forall c <- w.admissions :: c in w.compactions)
    && w.dead <= w.compactions
  }

  /** The saved intent can be recovered: its envelope is still filed, its compaction current. */
  ghost predicate Recoverable(d: Disk) {
    match d.agent.input
    case None => true
    case Some(EnvelopeInput(id)) =>
      id in d.files && !Unentered(d.agent, id) && (d.agent.cleanup.Some? ==> d.agent.cleanup.value.id != id)
    case Some(CompactionInput(c)) =>
      d.agent.compaction.Some? && d.agent.compaction.value.id == c && d.agent.compaction.value.status == Queued
    case Some(RecoveryInput(c)) =>
      && d.agent.compaction.Some? && d.agent.compaction.value.id == c
      && (d.agent.compaction.value.status == Submitted || d.agent.compaction.value.status == CompactionUnverified)
    case Some(InterruptInput(_)) => true
  }

  /** An abandoned resume note that was moved back into `new`. */
  ghost predicate MovedBack(d: Disk, id: EnvelopeID) {
    In(d, id, New) && Abandoned(d.agent, id)
  }

  ghost predicate FailedPointer(d: Disk, id: EnvelopeID) {
    In(d, id, FailedDir) || Holds(d.agent, id) || MovedBack(d, id)
  }

  ghost predicate AcceptedPointer(d: Disk, id: EnvelopeID) {
    (In(d, id, Cur) && d.files[id].envelope.outcome == Accepted) || Holds(d.agent, id) || MovedBack(d, id)
  }

  ghost predicate DeliveredPointer(d: Disk, id: EnvelopeID) {
    (In(d, id, Cur) && d.files[id].envelope.outcome == Delivered) || Holds(d.agent, id)
  }

  /** The receipts the record names are distinct, exist where it says, and none is being cleaned up. */
  ghost predicate Pointed(d: Disk) {
    var a := d.agent;
    && (a.lastFailed.Some? ==> FailedPointer(d, a.lastFailed.value))
    && (a.lastAccepted.Some? ==> AcceptedPointer(d, a.lastAccepted.value))
    && (a.lastDelivered.Some? ==> DeliveredPointer(d, a.lastDelivered.value))
    && (a.lastFailed.Some? ==> a.lastFailed != a.lastAccepted && a.lastFailed != a.lastDelivered)
    && (a.lastAccepted.Some? ==> a.lastAccepted != a.lastDelivered)
    && (a.cleanup.Some? ==>
          var r := a.cleanup.value;
          && r.directory != New
          && a.lastFailed != Some(r.id) && a.lastAccepted != Some(r.id) && a.lastDelivered != Some(r.id))
  }

  /** The current compaction was requested; what a later step of it publishes is still unused;
      its admission is recorded; and it counts as failed exactly when it was once saved so. */
  ghost predicate CompactionSound(a: Agent, w: World) {
    a.compaction.Some? ==>
      var c := a.compaction.value;
      && c.id in w.compactions && !(c.resumeFrom.kind == GanglineSender && c.resumeFrom.name == "context-band")
      && (c.status == Queued ==> w.links[ResumeNote(c.id)] == 0)
      && (c.status != CompactionFailed ==> w.links[FailureNote(c.id)] == 0)
      && (c.resumeAdmitted <==> w.admissions[c.id] == 1)
      && (c.status == CompactionFailed <==> c.id in w.dead)
  }

  ghost predicate BandsSound(a: Agent) {
    forall i | 0 <= i < |a.bands.pending| :: a.bands.pending[i].id.BandNote? && a.bands.pending[i].outcome == NoOutcome
  }

  ghost predicate Inv(d: Disk, w: World) {
    && Filed(d, w) && Counted(w) && Recoverable(d) && Pointed(d)
    && CompactionSound(d.agent, w) && BandsSound(d.agent)
  }

  /** What a crash leaves behind. The type admits only states that keep the invariant, so every
      write of one is checked against it. */
  datatype State = State(disk: Disk, world: World)

  type Durable = s: State | Inv(s.disk, s.world) ghost witness State(Disk(map[], FRESH_AGENT), EMPTY_WORLD)

  const EMPTY_WORLD := World(multiset{}, multiset{}, {}, multiset{}, {}, {}, {})

  const FRESH_AGENT := Agent(
    0, "", "", Starting, Unknown, "", 0, 0, 0, 0, 0, 0, 0, 0,
    None, None, NO_CAPACITY, BandState([], false, 0), None, None, None, None)
}
