/** Whole runs: any number of processes, each working on one agent's inbox until it finishes or
    dies after an arbitrary number of writes. */
module DeliveryRuns {
  import opened Records
  import opened AgentStep
  import opened DeliveryState
  import opened DeliverySteps
  import opened DeliverySpec
  import opened Delivery
  import opened DeliveryTheorems

  /** What a process may do while it holds the lock. */
  datatype Work =
    | Drain(turns: seq<Turn>)
    | Compact(id: nat, resume: string, from: Sender, running: bool)
    | Begin(token: nat, start: Start)
    | Continue
    | Witness(ended: Option<Time>)
    | Prove(hook: Option<Hook>)
    | Admit(matches: bool, sameSession: bool, heads: bool)
    | Interrupt(busy: bool, why: string)
    | Observe(refused: bool)
    | Note(text: string)

  /** A process, with the number of writes it lives for. A sender takes no lock. Any other takes it, with
      what hooks wrote before it, and does any number of things under it, each at its time. */
  datatype Session =
    | Sends(lives: Option<nat>, message: Envelope)
    | Locks(lives: Option<nat>, at: Time, hook: Option<Hook>, completion: Option<Time>, work: seq<(Time, Work)>)

  /** The clock of a process is never zero. */
  ghost predicate Clocked(x: Session) {
    x.Locks? ==> x.at != 0 && forall w <- x.work :: w.0 != 0
  }

  /** One thing done under the lock. A process that cannot finish it does no more. */
  method Perform(o: Owner, at: Time, work: Work) returns (ok: bool)
    requires at != 0 && o.Clean() && o.a.input.None?
    modifies o
    ensures Grows(old(o.s).world, o.s.world)
    ensures ok ==> o.Clean() && o.a.input.None?
  {
    hide Inv, Grows;
    GrowsSame(o.s.world);
    ok := false;
    match work
    case Drain(turns) =>
      if forall t <- turns :: t.verdict.Sent? ==>
           t.verdict.outcome == Delivered || t.verdict.outcome == Accepted || t.verdict.outcome == Unverified {
        ok := o.DrainLocked(at, turns);
      }
    case Compact(id, resume, from, running) =>
      if id !in o.s.world.compactions && !(from.kind == GanglineSender && from.name == "context-band") {
        ok := o.RequestCompaction(at, id, resume, from, running);
      }
    case Begin(token, start) => ok := o.StartCompaction(at, token, start);
    case Continue => ok := o.ContinueCompaction(at);
    case Witness(ended) => ok := o.ReconcileCompactionWitness(at, ended);
    case Prove(hook) =>
      var missing;
      ok, missing := o.ReconcileDelivery(at, hook);
    case Admit(matches, sameSession, heads) =>
      var admitted;
      ok, admitted := o.AdmitResume(at, matches, sameSession, heads);
    case Interrupt(busy, why) => ok := o.InterruptCompaction(at, busy, why);
    case Observe(refused) => ok := o.ObserveCompaction(at, refused);
    case Note(text) => ok := o.NoteBand(at, text);
  }

  /** A resume note that is marooned when the process starts is marooned when it ends. */
  method RunSession(o: Owner, x: Session)
    requires Clocked(x)
    modifies o
    ensures Grows(old(o.s).world, o.s.world)
    ensures forall id | Marooned(old(o.s).disk, id) :: Marooned(o.s.disk, id) && o.s.world.typed[id] == old(o.s).world.typed[id]
  {
    hide Inv, Grows, Marooned;
    GrowsSame(o.s.world);
    o.left := x.lives;
    if x.Sends? {
      var e := x.message;
      if e.id.Message? && o.s.world.links[e.id] == 0 && !IsBandNotice(e) && e.outcome == NoOutcome {
        ghost var before := o.s;
        var sent := o.PublishNew(e);
        MailSparesMarooned(before, e);
      }
      return;
    }
    var ok := o.Acquire(x.at, x.hook, x.completion);
    for i := 0 to |x.work|
      invariant ok ==> o.Clean() && o.a.input.None?
      invariant Grows(old(o.s).world, o.s.world) && Grows(Taken(old(o.s)).world, o.s.world)
    {
      if !ok {
        break;
      }
      var (at, work) := x.work[i];
      assert x.work[i] in x.work;
      ghost var before := o.s.world;
      ok := Perform(o, at, work);
      GrowsOn(old(o.s).world, before, o.s.world);
      GrowsOn(Taken(old(o.s)).world, before, o.s.world);
    }
    GrowsMeans(Taken(old(o.s)).world, o.s.world);
    StrandedStay(old(o.s), o.s);
  }

  lemma MailSparesMarooned(t: State, e: Envelope)
    ensures forall id | Marooned(t.disk, id) :: Marooned(Queue(t, e).disk, id)
  {
  }

  /** What an owner found marooned when it took the lock is marooned while that is on record. */
  lemma StrandedStay(t: Durable, n: Durable)
    requires Taken(t).world.stranded <= n.world.stranded
    requires forall id <- Taken(t).world.stranded :: n.world.typed[id] == t.world.typed[id]
    ensures forall id | Marooned(t.disk, id) :: Marooned(n.disk, id) && n.world.typed[id] == t.world.typed[id]
  {
    forall id | Marooned(t.disk, id) ensures Marooned(n.disk, id) && n.world.typed[id] == t.world.typed[id] {
      assert id in Taken(t).world.stranded;
      assert id in n.world.stranded;
      FileIsSound(n.disk, n.world, id);
    }
  }

  /** Such a record never heals: its lock cannot be taken, however often that is tried with a hook on
      disk. */
  method StaysWedged(o: Owner, attempts: seq<(Time, Hook, Option<Time>)>)
    requires forall x <- attempts :: x.0 != 0 && Dangling(o.s.disk, x.1)
    requires o.s.disk.agent.input.None? && o.s.disk.agent.cleanup.None? && o.left.None?
    modifies o
    ensures o.s.disk == old(o.s).disk && o.s.world == old(o.s).world.(stranded := o.s.world.stranded)
  {
    for i := 0 to |attempts|
      invariant o.left.None? && o.s.disk == old(o.s).disk && o.s.world == old(o.s).world.(stranded := o.s.world.stranded)
    {
      var (at, hook, completion) := attempts[i];
      assert attempts[i] in attempts;
      var ok := o.Acquire(at, Some(hook), completion);
      assert !ok;
    }
  }

  /** After any run, with a crash allowed after every write and every key press, each publication
      was typed at most once, every message at most once in all, each continuation was admitted at
      most once, and an inbox at rest holds at most two accepted or delivered receipts and, beside the
      latest failure, one cancelled continuation for each compaction that failed. The history these
      count only grows. A resume note that is marooned once is never typed, cancelled or withdrawn, and
      none is marooned but one whose compaction failed or was replaced by a request. */
  method Run(o: Owner, script: seq<Session>)
    requires forall x <- script :: Clocked(x)
    modifies o
    ensures Grows(old(o.s).world, o.s.world)
    ensures forall id :: o.s.world.typed[id] <= o.s.world.links[id]
    ensures forall id: EnvelopeID :: !id.BandNote? ==> o.s.world.typed[id] <= 1
    ensures forall c :: o.s.world.admissions[c] <= 1
    ensures o.s.disk.agent.input.None? && o.s.disk.agent.cleanup.None? ==>
      |Receipts(o.s.disk, Cur)| <= 2 && |Receipts(o.s.disk, FailedDir)| <= 1 + |o.s.world.dead|
    ensures forall id | Marooned(old(o.s).disk, id) :: Marooned(o.s.disk, id) && o.s.world.typed[id] == old(o.s).world.typed[id]
    ensures forall id | Marooned(o.s.disk, id) :: id.ResumeNote? && (id.compaction in o.s.world.dead || id.compaction in o.s.world.replaced)
    ensures forall c <- o.s.world.replaced :: Marooned(o.s.disk, ResumeNote(c))
  {
    hide Marooned, Grows, Inv;
    GrowsSame(o.s.world);
    for i := 0 to |script|
      invariant Grows(old(o.s).world, o.s.world)
      invariant forall id | Marooned(old(o.s).disk, id) :: Marooned(o.s.disk, id) && o.s.world.typed[id] == old(o.s).world.typed[id]
    {
      assert script[i] in script;
      ghost var before := o.s.world;
      RunSession(o, script[i]);
      GrowsOn(old(o.s).world, before, o.s.world);
    }
    RunsAreBounded(o.s);
    forall id ensures Marooned(o.s.disk, id) ==> id.ResumeNote? && (id.compaction in o.s.world.dead || id.compaction in o.s.world.replaced) {
      MaroonedMeans(o.s, id);
    }
    forall c <- o.s.world.replaced ensures Marooned(o.s.disk, ResumeNote(c)) {
      MaroonedMeans(o.s, ResumeNote(c));
    }
  }

  lemma RunsAreBounded(t: Durable)
    ensures forall id :: t.world.typed[id] <= t.world.links[id]
    ensures forall id: EnvelopeID :: !id.BandNote? ==> t.world.typed[id] <= 1
    ensures forall c :: t.world.admissions[c] <= 1
    ensures t.disk.agent.input.None? && t.disk.agent.cleanup.None? ==>
      |Receipts(t.disk, Cur)| <= 2 && |Receipts(t.disk, FailedDir)| <= 1 + |t.world.dead|
  {
    if t.disk.agent.input.None? && t.disk.agent.cleanup.None? {
      ReceiptsBounded(t);
    }
  }

  const LATE := 1 + WATCHDOG_TIMEOUT
  const UNSEEN := Sent(Unverified, "context-band submit hook is not yet available")

  /** A fresh agent crosses a band; its note is published, typed, and stays unverified. */
  method NoteTypedOnce(agent: Agent) returns (o: Owner, note: Envelope)
    requires agent.input.None? && agent.compaction.None? && agent.cleanup.None? && agent.bands == BandState([], false, 0)
    requires agent.lastAccepted.None? && agent.lastDelivered.None? && agent.lastFailed.None?
    ensures fresh(o) && o.Clean() && o.left.None? && o.a.input.None?
    ensures note == BandEnvelope(agent, 1, "band crossed") && o.a.bands.pending == [note] && !o.a.bands.discardQueued
    ensures o.a.lastFailed == Some(note.id) && In(o.s.disk, note.id, FailedDir) && o.s.disk.files.Keys == {note.id}
    ensures o.s.world.typed == multiset{note.id} && o.s.world.links == multiset{note.id}
  {
    hide Inv, Attempted;
    o := new Owner(agent);
    var ok := o.NoteBand(1, "band crossed");
    note := BandEnvelope(agent, 1, "band crossed");
    OnlyNote(o.s, LATE, note);
    ok := o.PublishContextNotes(LATE);
    NoteUnverified(o.s, LATE, note, UNSEEN);
    ok := o.Deliver(LATE, note, 0, UNSEEN, None);
  }

  /** A message fails behind the unverified note and takes its receipt; the note is queued again. */
  method NoteQueuedAgain(o: Owner, note: Envelope, e: Envelope)
    requires o.Clean() && o.left.None? && o.a.input.None? && note.id.BandNote? && note.createdAt + WATCHDOG_TIMEOUT <= LATE
    requires o.a.bands.pending == [note] && !o.a.bands.discardQueued && o.a.lastFailed == Some(note.id)
    requires e.id.Message? && o.s.world.links[e.id] == 0 && !IsBandNotice(e) && !IsResume(e) && e.outcome == NoOutcome
    modifies o
    ensures o.Clean() && o.left.None? && o.a.input.None?
    ensures In(o.s.disk, note.id, New) && o.s.disk.files[note.id].envelope == note
    ensures o.s.world.typed == old(o.s).world.typed
    ensures o.s.world.links[note.id] == old(o.s).world.links[note.id] + 1
  {
    hide Inv, Attempted, NotesQueued;
    var ok := o.PublishNew(e);
    var t := o.s;
    NoteTypedAgain(t, LATE, LATE, e, 0, Hazard("paste hazard"), 0);
    ok := o.Deliver(LATE, e, 0, Hazard("paste hazard"), None);
    var failed := State(Attempted(t.disk, LATE, e, 0, Hazard("paste hazard")), t.world);
    assert o.s == failed && o.a.bands == t.disk.agent.bands;
    NotesAreBands(o.s.disk, o.s.world);
    ok := o.PublishContextNotes(LATE);
    assert o.s == NotesQueued(failed, LATE, t.disk.agent.bands.pending);
    assert t.disk.agent.bands.pending[0] == note;
  }

  /** A concrete run in which one band note is typed twice: it stays unverified, another message
      fails and takes its receipt, and the note is published again. No process dies. */
  method BandNoteTypedTwice(agent: Agent, e: Envelope) returns (o: Owner)
    requires agent.input.None? && agent.compaction.None? && agent.cleanup.None? && agent.bands == BandState([], false, 0)
    requires agent.lastAccepted.None? && agent.lastDelivered.None? && agent.lastFailed.None?
    requires e.id.Message? && !IsBandNotice(e) && !IsResume(e) && e.outcome == NoOutcome
    ensures o.s.world.typed[BandNote(1)] == 2 && o.s.world.links[BandNote(1)] == 2
  {
    hide Inv, Attempted;
    var note;
    o, note := NoteTypedOnce(agent);
    NoteQueuedAgain(o, note, e);
    var ok := o.Deliver(LATE, note, 0, UNSEEN, None);
  }

  /** The agent of a team whose first compaction was submitted and has its token. */
  function SubmittedFirst(from: Sender): Compaction {
    NewCompaction(1, 1, "", from).(startedAt := 2, deadline := 2 + OPERATION_TIMEOUT, status := Submitted, resumeToken := Some(0))
  }

  /** The continuation was linked, and the record does not know. */
  ghost predicate LinkedAlone(t: State, from: Sender) {
    var a := t.disk.agent;
    && a.input.None? && a.cleanup.None? && a.lastAccepted.None? && a.lastFailed.None? && a.lastDelivered.None?
    && a.status == Active && a.bands == BandState([], false, 0) && a.compaction == Some(SubmittedFirst(from))
    && t.disk.files == map[ResumeNote(1) := File(New, ResumeEnvelope(a, 2))]
    && t.world == EMPTY_WORLD.(compactions := {1}, links := multiset{ResumeNote(1)})
  }

  /** A fresh agent's first compaction is submitted, and the process dies right after it linked the
      continuation. */
  method NoteLinked(agent: Agent, from: Sender) returns (o: Owner)
    requires agent.input.None? && agent.compaction.None? && agent.cleanup.None? && agent.bands == BandState([], false, 0)
    requires agent.lastAccepted.None? && agent.lastDelivered.None? && agent.lastFailed.None? && agent.status == Active
    requires !(from.kind == GanglineSender && from.name == "context-band")
    ensures fresh(o) && LinkedAlone(o.s, from)
  {
    hide Inv, Steady, PublishTrace, ResumePublished, LinkedAlone, Reached, Lives, Queue, Grows;
    o := new Owner(agent);
    var ok := o.RequestCompaction(1, 1, "", from, false);
    ok := o.BeginCompaction(2);
    CompactionMoved(o.s.disk, o.s.world, Step(o.a, o.a.id, 2, CompactionSubmitted(1)).agent);
    GrowsSame(o.s.world);
    ok := o.Apply(2, CompactionSubmitted(1), o.s.world);
    var t := o.s;
    o.left := Some(2);
    ok := o.PublishResume(2, 0);
    SecondIsLinked(t, from);
  }

  /** Two writes into publishing, the continuation is linked. */
  lemma SecondIsLinked(t: State, from: Sender)
    requires var a := t.disk.agent;
             && a.input.None? && a.cleanup.None? && a.lastAccepted.None? && a.lastFailed.None? && a.lastDelivered.None?
             && a.status == Active && a.bands == BandState([], false, 0)
             && a.compaction == Some(SubmittedFirst(from).(resumeToken := None))
             && t.disk.files == map[] && t.world == EMPTY_WORLD.(compactions := {1})
    ensures LinkedAlone(Reached(PublishTrace(t, 2, 0), Some(2)), from)
  {
  }

  /** The next owner finds nothing to recover, to prove or to publish. */
  lemma NothingToRecover(t: State, at: Time, from: Sender)
    requires at != 0 && LinkedAlone(t, from)
    ensures Acquired(t, at, None, None) == t.(disk := t.disk.(agent := DeadlinesDone(t.disk.agent, at)))
  {
    assert Noticed(t.disk) == {};
    assert Taken(t) == t;
    assert LateDone(InputRecovered(Cleaned(t.disk), at), at, None) == t.disk;
    NothingToContinue(t, at, from);
    hide LinkedAlone, DeadlinesDone, Continued, Noticed, LateDone, InputRecovered, Cleaned;
  }

  lemma NothingToContinue(t: State, at: Time, from: Sender)
    requires at != 0 && LinkedAlone(t, from)
    ensures NotesSettled(t, at) == t && Continued(t, at) == t
  {
    hide Lost;
  }

  /** It finds the deadline passed. */
  lemma DeadlinePassed(a: Agent, from: Sender)
    requires a.compaction == Some(SubmittedFirst(from)) && a.status == Active
    ensures var n := DeadlinesDone(a, 2 + OPERATION_TIMEOUT);
            && n.status == Active && n.lastFailed == a.lastFailed
            && n.compaction == Some(SubmittedFirst(from).(status := CompactionUnverified, reason := UNCONFIRMED))
  {
    var at := 2 + OPERATION_TIMEOUT;
    var b := Applied(a, at, CompactionUnconfirmed(1, UNCONFIRMED, false));
    assert b.compaction == Some(SubmittedFirst(from).(status := CompactionUnverified, reason := UNCONFIRMED));
    assert Overdue(a, at) && b.status == Active && b.lastFailed == a.lastFailed;
    OtherDeadlines(b, at);
    hide Applied;
  }

  /** The other deadlines of an active agent change neither its status nor a compaction past its own. */
  lemma OtherDeadlines(a: Agent, at: Time)
    requires a.status == Active && a.compaction.Some? && a.compaction.value.status == CompactionUnverified
    ensures var n := Applied(a, at, DeadlineChecked);
            n.status == Active && n.lastFailed == a.lastFailed && n.compaction == a.compaction
  {
  }

  /** The only mail is the note of a compaction that is not the current one. */
  lemma AloneIsStuck(d: Disk, e: Envelope, now: Time)
    requires d.agent.input.None? && d.agent.compaction.Some? && d.agent.compaction.value.id != 1
    requires d.files == map[ResumeNote(1) := File(New, e)] && e.id == ResumeNote(1)
    requires e.purpose == Resume && e.notBefore == 0 && e.notAfter == 0
    ensures Marooned(d, ResumeNote(1)) && Stuck(d, ResumeNote(1), now)
  {
  }

  /** A concrete run that maroons a note although no compaction ever fails: the process dies right after
      it linked the continuation, the deadline passes, and the next request is accepted. The drain is
      stuck behind the note. */
  method NoteReplaced(agent: Agent, from: Sender) returns (o: Owner)
    requires agent.input.None? && agent.compaction.None? && agent.cleanup.None? && agent.bands == BandState([], false, 0)
    requires agent.lastAccepted.None? && agent.lastDelivered.None? && agent.lastFailed.None? && agent.status == Active
    requires !(from.kind == GanglineSender && from.name == "context-band")
    ensures Marooned(o.s.disk, ResumeNote(1)) && Stuck(o.s.disk, ResumeNote(1), 2 + OPERATION_TIMEOUT)
    ensures o.s.world.dead == {} && o.s.world.replaced == {1}
  {
    hide Inv, Steady, Acquired, DeadlinesDone, Dangling, InputRecovered, Cleaned, Marooned, Stuck;
    o := NoteLinked(agent, from);
    o.left := None;
    ghost var e := ResumeEnvelope(o.s.disk.agent, 2);
    NothingToRecover(o.s, 2 + OPERATION_TIMEOUT, from);
    DeadlinePassed(o.s.disk.agent, from);
    var ok := o.Acquire(2 + OPERATION_TIMEOUT, None, None);
    ok := o.RequestCompaction(2 + OPERATION_TIMEOUT, 2, "", from, false);
    AloneIsStuck(o.s.disk, e, 2 + OPERATION_TIMEOUT);
  }

  lemma OnlyNote(t: State, now: Time, note: Envelope)
    requires note.createdAt + WATCHDOG_TIMEOUT <= now
    ensures NotesQueued(t, now, [note]) == Queue(t, note)
  {
    assert [note][..0] == [];
  }

  /** An unverified attempt leaves the note pending, with its receipt in `failed`. */
  lemma NoteUnverified(t: Durable, at: Time, note: Envelope, v: Verdict)
    requires at != 0 && In(t.disk, note.id, New) && t.disk.files[note.id].envelope == note
    requires v.Sent? && v.outcome == Unverified
    requires t.disk.agent.input.None? && t.disk.agent.cleanup.None? && t.disk.agent.lastFailed.None?
    ensures var d := Attempted(t.disk, at, note, 0, v);
            && d.agent.lastFailed == Some(note.id) && d.agent.bands == t.disk.agent.bands
            && In(d, note.id, FailedDir) && (forall k <- d.files :: k in t.disk.files)
            && d.agent.input.None? && d.agent.cleanup.None?
  {
    hide Inv, Finished;
    var stamped := Stamp(note, t.disk.agent.bands.pending, 0);
    var held := Put(t.disk, stamped).(agent := InputBegun(t.disk.agent, at, EnvelopeInput(note.id)));
    var wire := Pasted(stamped, v);
    UnverifiedFinished(Put(held, wire), at, wire, v.reason);
  }

  lemma UnverifiedFinished(d: Disk, at: Time, e: Envelope, reason: string)
    requires at != 0 && Holds(d.agent, e.id) && In(d, e.id, New) && d.agent.cleanup.None? && d.agent.lastFailed.None?
    ensures var n := Finished(d, at, e, Unverified, reason);
            && n.agent.lastFailed == Some(e.id) && n.agent.bands == d.agent.bands && In(n, e.id, FailedDir)
            && n.files.Keys == d.files.Keys && n.agent.input.None? && n.agent.cleanup.None?
  {
    UnverifiedSettled(d, e, reason);
    hide Settled;
  }

  lemma UnverifiedSettled(d: Disk, e: Envelope, reason: string)
    requires In(d, e.id, New) && d.agent.cleanup.None? && d.agent.lastFailed.None?
    ensures var n := Settled(d, e, Unverified, reason);
            && n.agent.lastFailed == Some(e.id) && n.agent.bands == d.agent.bands && In(n, e.id, FailedDir)
            && n.files.Keys == d.files.Keys && n.agent.input == d.agent.input && n.agent.cleanup.None?
  {
  }
}
