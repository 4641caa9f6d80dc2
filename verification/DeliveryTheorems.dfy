/** What the delivery protocol promises over every run and every crash point, and the four places
    where the program promises more than it keeps. */
module DeliveryTheorems {
  import opened Records
  import opened AgentStep
  import opened DeliveryState
  import opened DeliverySteps
  import opened DeliverySpec
  import opened Sets

  /** At every crash point, the submit key was pressed at most once per inbox link of an envelope,
      and only a band note is ever linked twice. */
  lemma TypedAtMostOnce(t: Durable, id: EnvelopeID)
    ensures t.world.typed[id] <= t.world.links[id]
    ensures !id.BandNote? ==> t.world.typed[id] <= 1
  {
  }

  /** Whatever a drain would type next was not typed since it was last published. */
  lemma NextIsUntyped(t: Durable, id: EnvelopeID)
    requires t.disk.agent.input.None? && In(t.disk, id, New)
    requires IsResume(t.disk.files[id].envelope) ==> CompletedResume(t.disk.agent, t.disk.files[id].envelope)
    ensures t.world.typed[id] < t.world.links[id]
    ensures !id.BandNote? ==> t.world.typed[id] == 0
  {
    FileIsSound(t.disk, t.world, id);
    TypedWithinLinks(t.world, id);
  }

  /** Filing a result: the envelope lies in its result directory under its outcome, the record
      names it by that receipt alone, the receipt it replaces is removed, and every other file is
      as it was. */
  lemma SettledMeans(t: Durable, e: Envelope, outcome: Outcome, reason: string)
    requires In(t.disk, e.id, New) && Holds(t.disk.agent, e.id) && outcome != NoOutcome
    requires t.disk.agent.cleanup.None?
    ensures var n := Settled(t.disk, e, outcome, reason);
            var previous := Receipt(Forget(t.disk.agent, e.id), outcome);
            && n.files.Keys == t.disk.files.Keys -
                 (if previous.Some? && In(t.disk, previous.value, DirectoryOf(outcome)) then {previous.value} else {})
            && (forall k <- n.files :: k != e.id ==> n.files[k] == t.disk.files[k])
            && n.files[e.id] == File(DirectoryOf(outcome), Closed(e, outcome, reason))
            && SoleReceipt(n.agent, outcome, e.id) && n.agent.cleanup.None?
  {
    hide Inv;
    var previous := Receipt(Forget(t.disk.agent, e.id), outcome);
    assert previous != Some(e.id);
  }

  /** Recovery never presses the submit key (`Owner.Acquire`); it files the envelope its
      predecessor held, as accepted if the native queue was seen to hold it and as unverified
      otherwise, wherever the crash had left the file. */
  lemma RecoveredMeans(t: Durable, at: Time, id: EnvelopeID)
    requires at != 0 && t.disk.agent.input == Some(EnvelopeInput(id)) && t.disk.agent.cleanup.None?
    ensures id in t.disk.files
    ensures var n, outcome := Recovered(t.disk, at, id),
                              if t.disk.files[id].envelope.outcome == Accepted then Accepted else Unverified;
            && n.agent.input.None? && In(n, id, DirectoryOf(outcome)) && n.files[id].envelope.outcome == outcome
            && SoleReceipt(n.agent, outcome, id)
  {
    IntentPhase(t.disk, t.world);
    HeldMoved(t.disk, t.world, id, New);
    var moved: Durable := State(Move(t.disk, id, New), t.world);
    var e := t.disk.files[id].envelope;
    var outcome := if e.outcome == Accepted then Accepted else Unverified;
    var reason := if e.outcome == Accepted then e.reason else OWNER_EXITED;
    FileIsSound(t.disk, t.world, id);
    FinishedMeans(moved, at, e, outcome, reason);
  }

  lemma FinishedMeans(t: Durable, at: Time, e: Envelope, outcome: Outcome, reason: string)
    requires at != 0 && In(t.disk, e.id, New) && Holds(t.disk.agent, e.id) && outcome != NoOutcome
    requires t.disk.agent.cleanup.None?
    ensures var n := Finished(t.disk, at, e, outcome, reason);
            && n.agent.input.None? && In(n, e.id, DirectoryOf(outcome))
            && n.files[e.id].envelope == Closed(e, outcome, reason) && SoleReceipt(n.agent, outcome, e.id)
  {
    hide Inv, Settled, StampSettled, InputDone;
    SettledNames(t.disk, t.world, e, outcome, reason);
    var n := Settled(t.disk, e, outcome, reason);
    StampKeepsReceipt(n, e, outcome);
    DoneKeepsReceipts(StampSettled(n, e, outcome).agent, at, e.id, outcome, reason);
  }

  lemma DoneKeepsReceipts(a: Agent, at: Time, id: EnvelopeID, outcome: Outcome, reason: string)
    requires at != 0 && Holds(a, id)
    ensures var b := InputDone(a, at, id, outcome, reason);
            && b.input.None? && b.lastAccepted == a.lastAccepted && b.lastDelivered == a.lastDelivered
            && b.lastFailed == a.lastFailed && b.cleanup == a.cleanup
  {
    hide CheckDeadlines, Doubled, Bounded;
  }

  lemma {:induction false} NotesKept(notes: seq<Envelope>, crossed: set<EnvelopeID>, note: Envelope)
    ensures note in KeptNotes(notes, crossed) <==> note in notes && note.id !in crossed
  {
    if notes != [] {
      assert notes == notes[..|notes| - 1] + [notes[|notes| - 1]];
      NotesKept(notes[..|notes| - 1], crossed, note);
    }
  }

  lemma {:induction false} NotesGone(d: Disk, notes: seq<Envelope>, crossed: set<EnvelopeID>, e: EnvelopeID, id: EnvelopeID)
    ensures var n := WithoutNotes(d, notes, crossed, e);
            && (id in n.files <==> id in d.files && !(In(d, id, New) && id in crossed && id != e && id in IDs(notes)))
            && (id in n.files ==> n.files[id] == d.files[id])
  {
    if notes != [] {
      assert notes == notes[..|notes| - 1] + [notes[|notes| - 1]];
      NotesGone(d, notes[..|notes| - 1], crossed, e, id);
      assert IDs(notes) == IDs(notes[..|notes| - 1]) + {notes[|notes| - 1].id};
    }
  }

  /** A delivered stamp settles exactly the crossings it carried: they are pending no more, and their
      queued notes are withdrawn, apart from the envelope itself. */
  lemma StampMeans(d: Disk, e: Envelope, outcome: Outcome, note: Envelope, id: EnvelopeID)
    ensures var n := StampSettled(d, e, outcome);
            if e.stamp.None? || outcome != Delivered then n == d
            else && (note in n.agent.bands.pending <==> note in d.agent.bands.pending && note.id !in e.stamp.value)
                 && (id in n.files <==> id in d.files && !(In(d, id, New) && id in e.stamp.value && id != e.id
                                                           && id in IDs(d.agent.bands.pending)))
                 && (id in n.files ==> n.files[id] == d.files[id])
  {
    if e.stamp.Some? {
      NotesKept(d.agent.bands.pending, e.stamp.value, note);
      NotesGone(d, d.agent.bands.pending, e.stamp.value, e.id, id);
    }
  }

  /** A proved receipt ends delivered, as its envelope's only one, and nothing is held. */
  lemma ConfirmedMeans(t: Durable, at: Time, hook: Option<Hook>, id: EnvelopeID)
    requires at != 0 && t.disk.agent.cleanup.None? && LateProof(t.disk, hook) == Proof(id)
    ensures id in t.disk.files
    ensures var n := Confirmed(t.disk, at, id);
            && n.agent.input.None? && In(n, id, Cur) && n.files[id].envelope.outcome == Delivered
            && SoleReceipt(n.agent, Delivered, id)
  {
    FileIsSound(t.disk, t.world, id);
    ReceiptsDistinct(t.disk, t.world);
    var begun := t.disk.(agent := InputBegun(t.disk.agent, at, EnvelopeInput(id)));
    IntentSaved(t.disk, t.world, begun.agent);
    HeldMoved(begun, t.world, id, New);
    Forgotten(Move(begun, id, New), t.world, id);
    var reopened: Durable := State(Reopened(t.disk, at, id), t.world);
    hide Inv, Finished;
    FinishedMeans(reopened, at, t.disk.files[id].envelope, Delivered, "");
  }

  /** A cancelled continuation lies in `failed`, is named unless another failure is retained, and every
      other file is as it was. */
  lemma CancelledMeans(t: Durable, reason: string)
    requires t.disk.agent.cleanup.None? && t.disk.agent.compaction.Some? && t.disk.agent.compaction.value.status == CompactionFailed
    requires t.disk.agent.input.None?
    requires var a, id := t.disk.agent, ResumeNote(t.disk.agent.compaction.value.id);
             id in t.disk.files && t.disk.files[id].envelope.outcome != Delivered && (In(t.disk, id, New) ==> a.lastFailed != Some(id))
    ensures var a, id := t.disk.agent, ResumeNote(t.disk.agent.compaction.value.id);
            var n := ResumeCancelled(t.disk, t.disk.agent.compaction.value.id, reason);
            && In(n, id, FailedDir) && n.files.Keys == t.disk.files.Keys
            && (forall x <- n.files :: x != id ==> n.files[x] == t.disk.files[x])
            && n.agent.lastFailed == if a.lastFailed.Some? && a.lastFailed != Some(id) then a.lastFailed else Some(id)
  {
    var c := t.disk.agent.compaction.value.id;
    FileIsSound(t.disk, t.world, ResumeNote(c));
    CancelTraceEnds(t.disk, t.world, c, reason);
    CancelSteps(t.disk, c, reason, |CancelTrace(t.disk, c, reason)| - 1);
    hide Inv, CancelTrace, ResumeCancelled;
  }

  /** A failed compaction ends with its continuation out of the queue, one notice in it, and every
      other file as it was. */
  lemma LostMeans(t: Durable, at: Time, reason: string)
    requires at != 0 && LosesNote(t)
    ensures var c, n := t.disk.agent.compaction.value.id, Lost(t, at, reason);
            && FailedCompaction(n.disk.agent, c) && n.disk.agent.input.None? && c in n.world.dead
            && In(n.disk, ResumeNote(c), FailedDir) && In(n.disk, FailureNote(c), New)
            && n.world.links[FailureNote(c)] == 1 && n.world.typed == t.world.typed && n.world.admissions == t.world.admissions
            && forall x <- t.disk.files :: x != ResumeNote(c) ==> x in n.disk.files && n.disk.files[x] == t.disk.files[x]
  {
    var c := t.disk.agent.compaction.value.id;
    var f := t.disk.(agent := FailureOf(t.disk, at, reason));
    NoteBefore(t);
    LosingKeeps(t, at, reason);
    var failed: Durable := State(f, t.world.(dead := t.world.dead + {c}));
    FailSteps(t, at, reason, 0);
    hide Inv, FailTrace, FailureOf, ResumeCancelled, Queue, FailureEnvelope, LosesNote, CancelTrace;
    CancelledMeans(failed, reason);
    CancelKeepsCompaction(failed, c, reason);
    var mid := State(ResumeCancelled(f, c, reason), failed.world);
    NoticeID(f.agent, at, reason);
    QueueSpares(mid, FailureEnvelope(f.agent, at, reason));
    QueueLinks(mid, FailureEnvelope(f.agent, at, reason));
  }

  /** The saved failure keeps the disk in order, and its notice was never queued. */
  lemma LosingKeeps(t: Durable, at: Time, reason: string)
    requires at != 0 && LosesNote(t)
    ensures var c := t.disk.agent.compaction.value.id;
            && Inv(t.disk.(agent := FailureOf(t.disk, at, reason)), t.world.(dead := t.world.dead + {c}))
            && FailureNote(c) !in t.disk.files && t.world.links[FailureNote(c)] == 0
  {
    CurrentIsSound(t.disk, t.world);
    UnlinkedIsAbsent(t.disk, t.world, FailureNote(t.disk.agent.compaction.value.id));
    CompactionLost(t.disk, t.world, FailureOf(t.disk, at, reason));
  }

  lemma NoticeID(a: Agent, at: Time, reason: string)
    requires a.compaction.Some?
    ensures FailureEnvelope(a, at, reason).id == FailureNote(a.compaction.value.id)
  {
  }

  lemma QueueLinks(t: State, e: Envelope)
    requires e.id !in t.disk.files
    ensures var n := Queue(t, e);
            && In(n.disk, e.id, New) && n.world == t.world.(links := t.world.links + multiset{e.id})
            && n.disk.files.Keys == t.disk.files.Keys + {e.id}
  {
  }

  lemma CancelKeepsCompaction(t: Durable, c: nat, reason: string)
    ensures var n := ResumeCancelled(t.disk, c, reason);
            n.agent.compaction == t.disk.agent.compaction && n.agent.input == t.disk.agent.input
  {
    hide Inv;
  }

  /** After an owner went on with the compaction, no proved end waits to be recorded and no completed
      compaction has an altered continuation in the queue or one that was not entered. */
  lemma ContinuedMeans(t: State, at: Time)
    requires at != 0
    ensures var n := Continued(t, at).disk;
            !Withheld(n) && (t.disk.agent.compaction.Some? && t.disk.agent.compaction.value.completedAt != 0 ==> !Proved(n.agent))
  {
    hide Lost, Queue;
    if Withheld(t.disk.(agent := Completing(t.disk.agent))) {
      LostIsFailed(t.(disk := t.disk.(agent := Completing(t.disk.agent))), at, NOT_ENTERED);
    }
  }

  lemma LostIsFailed(t: State, at: Time, reason: string)
    requires at != 0 && t.disk.agent.compaction.Some?
    ensures var a := Lost(t, at, reason).disk.agent;
            a.compaction.Some? && a.compaction.value.status == CompactionFailed
  {
  }

  /** A newer witness of a compaction's end is remembered: no crossing of the old context is pending, no
      notice of one is queued, and a compaction submitted before is no longer running. An older one changes
      nothing. */
  lemma WitnessedMeans(t: Durable, now: Time, ended: Time)
    requires now != 0
    ensures var n := Witnessed(t, now, Some(ended)).disk;
            if ended <= t.disk.agent.confirmedCompactedAt then n == t.disk
            else && n.agent.confirmedCompactedAt == ended && n.agent.bands.pending == [] && !n.agent.bands.discardQueued
                 && (forall x <- n.files :: !QueuedNotice(n.files[x]))
                 && (Running(t.disk.agent) && ended > t.disk.agent.compaction.value.startedAt ==> !Running(n.agent))
  {
    if t.disk.agent.compaction.Some? && NoteOf(t.disk.agent) in t.disk.files {
      FileIsSound(t.disk, t.world, NoteOf(t.disk.agent));
    }
    hide Inv;
    if ended > t.disk.agent.confirmedCompactedAt {
      var noted := t.(disk := t.disk.(agent := EndNoted(t.disk.agent, ended)));
      ResetIsQuiet(noted, now);
      hide NotesSettled, Continued, NoteLabelled, QueuedNotice;
      ContinuedKeeps(NotesSettled(noted, now), now);
    }
  }

  /** A reset with nothing pending only takes from the queue. */
  lemma ResetIsQuiet(t: State, now: Time)
    requires t.disk.agent.bands.pending == [] && t.disk.agent.bands.discardQueued && NoteLabelled(t.disk)
    ensures var n := NotesSettled(t, now).disk;
            && n.agent == t.disk.agent.(bands := t.disk.agent.bands.(discardQueued := false)) && NoteLabelled(n)
            && forall x <- n.files :: !QueuedNotice(n.files[x])
  {
  }

  function NoteOf(a: Agent): EnvelopeID
    requires a.compaction.Some?
  {
    ResumeNote(a.compaction.value.id)
  }

  /** The file of the current continuation is its own. */
  predicate NoteLabelled(d: Disk) {
    d.agent.compaction.Some? && NoteOf(d.agent) in d.files ==> d.files[NoteOf(d.agent)].envelope.id == NoteOf(d.agent)
  }

  predicate Running(a: Agent) {
    a.compaction.Some? && (a.compaction.value.status == Submitted || a.compaction.value.status == CompactionUnverified)
  }

  /** Going on with a compaction queues no notice and forgets no reading. */
  lemma ContinuedKeeps(t: State, at: Time)
    requires at != 0 && NoteLabelled(t.disk)
    ensures var n := Continued(t, at).disk;
            && n.agent.bands == t.disk.agent.bands && n.agent.confirmedCompactedAt == t.disk.agent.confirmedCompactedAt
            && (forall x <- n.files :: QueuedNotice(n.files[x]) ==> x in t.disk.files && QueuedNotice(t.disk.files[x]))
            && (Proved(t.disk.agent) ==> !Running(n.agent))
  {
    var d := t.disk.(agent := Completing(t.disk.agent));
    if Withheld(d) {
      LostKeeps(t.(disk := d), at, NOT_ENTERED);
    }
    hide Lost;
  }

  lemma LostKeeps(t: State, at: Time, reason: string)
    requires at != 0 && t.disk.agent.compaction.Some? && NoteLabelled(t.disk)
    ensures var n := Lost(t, at, reason).disk;
            && n.agent.bands == t.disk.agent.bands && n.agent.confirmedCompactedAt == t.disk.agent.confirmedCompactedAt
            && (forall x <- n.files :: QueuedNotice(n.files[x]) ==> x in t.disk.files && QueuedNotice(t.disk.files[x]))
            && !Running(n.agent)
  {
    var f := t.disk.(agent := FailureOf(t.disk, at, reason));
    CancelKeepsQuiet(f, t.disk.agent.compaction.value.id, reason);
    hide ResumeCancelled;
  }

  lemma CancelKeepsQuiet(d: Disk, c: nat, reason: string)
    requires ResumeNote(c) in d.files ==> d.files[ResumeNote(c)].envelope.id == ResumeNote(c)
    ensures var n := ResumeCancelled(d, c, reason);
            && n.agent.bands == d.agent.bands && n.agent.confirmedCompactedAt == d.agent.confirmedCompactedAt
            && n.agent.compaction == d.agent.compaction
            && forall x <- n.files :: QueuedNotice(n.files[x]) ==> x in d.files && QueuedNotice(d.files[x])
  {
    var id := ResumeNote(c);
    if id in d.files {
      var e := d.files[id].envelope;
      var m := if d.files[id].dir == New then d else Move(d, id, New).(agent := Forget(d.agent, id));
      CancelFilesQuiet(m, e, reason);
    }
    hide Settled, FiledAs;
  }

  lemma CancelFilesQuiet(m: Disk, e: Envelope, reason: string)
    ensures forall x <- FiledAs(m, e, Cancelled, reason).files :: QueuedNotice(FiledAs(m, e, Cancelled, reason).files[x]) ==>
      x != e.id && x in m.files && QueuedNotice(m.files[x])
    ensures var n := Settled(m, e, Cancelled, reason);
            && n.agent.bands == m.agent.bands && n.agent.confirmedCompactedAt == m.agent.confirmedCompactedAt
            && n.agent.compaction == m.agent.compaction
            && forall x <- n.files :: QueuedNotice(n.files[x]) ==> x != e.id && x in m.files && QueuedNotice(m.files[x])
    ensures FiledAs(m, e, Cancelled, reason).agent == m.agent
  {
  }

  /** A compaction failed with its note out of the queue and one notice in it. */
  ghost predicate CleanLoss(n: State, c: nat) {
    && FailedCompaction(n.disk.agent, c) && In(n.disk, FailureNote(c), New) && n.world.links[FailureNote(c)] == 1
    && (ResumeNote(c) in n.disk.files ==> In(n.disk, ResumeNote(c), FailedDir))
  }

  /** Without a note, failing a compaction only adds the notice. */
  lemma LostBare(t: Durable, at: Time, reason: string)
    requires at != 0 && t.disk.agent.compaction.Some? && t.disk.agent.compaction.value.status != CompactionFailed
    requires ResumeNote(t.disk.agent.compaction.value.id) !in t.disk.files
    ensures var c, n := t.disk.agent.compaction.value.id, Lost(t, at, reason);
            CleanLoss(n, c) && n.world.typed == t.world.typed && n.disk.agent.input.None?
  {
    var c := t.disk.agent.compaction.value.id;
    NeverNoticed(t);
    var f := t.disk.(agent := FailureOf(t.disk, at, reason));
    assert FailedCompaction(f.agent, c) && f.agent.input.None? && f.files == t.disk.files;
    hide Inv, FailureOf, Queue, FailureEnvelope;
    NoticeID(f.agent, at, reason);
    QueueLinks(State(f, t.world.(dead := t.world.dead + {c})), FailureEnvelope(f.agent, at, reason));
    QueueSpares(State(f, t.world.(dead := t.world.dead + {c})), FailureEnvelope(f.agent, at, reason));
  }

  /** The notice of a compaction that has not failed was never queued. */
  lemma NeverNoticed(t: Durable)
    requires t.disk.agent.compaction.Some? && t.disk.agent.compaction.value.status != CompactionFailed
    ensures var c := t.disk.agent.compaction.value.id; FailureNote(c) !in t.disk.files && t.world.links[FailureNote(c)] == 0
  {
    CurrentIsSound(t.disk, t.world);
    UnlinkedIsAbsent(t.disk, t.world, FailureNote(t.disk.agent.compaction.value.id));
  }

  lemma LostNoted(t: Durable, at: Time, reason: string)
    requires at != 0 && LosesNote(t)
    ensures var c, n := t.disk.agent.compaction.value.id, Lost(t, at, reason);
            CleanLoss(n, c) && n.world.typed == t.world.typed && n.disk.agent.input.None?
  {
    LostMeans(t, at, reason);
    hide Inv, Lost;
  }

  /** A delivered note stays where it is. */
  lemma LostDelivered(t: Durable, at: Time, reason: string)
    requires at != 0 && t.disk.agent.compaction.Some? && NoteDelivered(t.disk)
    requires t.disk.agent.input.Some? ==> !t.disk.agent.input.value.EnvelopeInput?
    ensures var c, n := t.disk.agent.compaction.value.id, LostDone(t, at, reason);
            && n.state.world.typed == t.world.typed && n.state.disk.agent.input.None? && !n.ok
            && FailedCompaction(n.state.disk.agent, c) && NoteDelivered(n.state.disk) && !In(n.state.disk, ResumeNote(c), New)
  {
    FileIsSound(t.disk, t.world, ResumeNote(t.disk.agent.compaction.value.id));
    hide Inv, Lost;
  }

  /** Failing a compaction is a clean loss, or an error that leaves a delivered note where it is. */
  lemma LostDoneMeans(t: Durable, at: Time, reason: string)
    requires at != 0 && t.disk.agent.compaction.Some? && t.disk.agent.compaction.value.status != CompactionFailed
    requires t.disk.agent.cleanup.None? && (t.disk.agent.input.Some? ==> !t.disk.agent.input.value.EnvelopeInput?)
    ensures var c, n := t.disk.agent.compaction.value.id, LostDone(t, at, reason);
            && n.state.world.typed == t.world.typed && n.state.disk.agent.input.None?
            && if n.ok then CleanLoss(n.state, c)
               else FailedCompaction(n.state.disk.agent, c) && NoteDelivered(n.state.disk) && !In(n.state.disk, ResumeNote(c), New)
  {
    var c := t.disk.agent.compaction.value.id;
    hide Inv, Lost, CleanLoss;
    if NoteDelivered(t.disk) {
      LostDelivered(t, at, reason);
    } else if ResumeNote(c) in t.disk.files {
      LostNoted(t, at, reason);
    } else {
      LostBare(t, at, reason);
    }
  }

  /** Going on with a compaction, or looking at it, leaves all as it was but the record of its end, or is
      a failure of it. */
  ghost predicate WentOn(t: State, n: Done, c: nat) {
    && n.state.world.typed == t.world.typed && n.state.disk.agent.input.None?
    && if !n.ok then FailedCompaction(n.state.disk.agent, c) && NoteDelivered(n.state.disk) && !In(n.state.disk, ResumeNote(c), New)
       else CleanLoss(n.state, c)
            || (&& n.state.world == t.world && n.state.disk.files == t.disk.files
                && Current(n.state.disk.agent, c) && n.state.disk.agent.compaction.value.status != CompactionFailed
                && (n.state.disk.agent.compaction.value.status == Queued ==> t.disk.agent.compaction == n.state.disk.agent.compaction))
  }

  lemma ContinuedEnds(t: Durable, at: Time)
    requires at != 0 && t.disk.agent.compaction.Some? && t.disk.agent.compaction.value.status != CompactionFailed
    requires t.disk.agent.input.None? && t.disk.agent.cleanup.None?
    ensures WentOn(t, Done(Continued(t, at), true), t.disk.agent.compaction.value.id)
  {
    if Proved(t.disk.agent) {
      CompletionAllowed(t.disk, t.world);
    }
    var n: Durable := t.(disk := t.disk.(agent := Completing(t.disk.agent)));
    if Withheld(n.disk) {
      WithheldIsUndelivered(n.disk, n.world);
      LostDoneMeans(n, at, NOT_ENTERED);
    }
    hide Inv, Lost, CleanLoss;
  }

  lemma ObservationEnds(t: Durable, at: Time, refused: bool)
    requires at != 0 && t.disk.agent.compaction.Some? && t.disk.agent.compaction.value.status != CompactionFailed
    requires t.disk.agent.input.None? && t.disk.agent.cleanup.None?
    ensures WentOn(t, ObservationDone(t, at, refused), t.disk.agent.compaction.value.id)
  {
    ContinuedEnds(t, at);
    if refused {
      LostDoneMeans(t, at, REFUSED);
    }
    hide Inv, Continued, LostDone, CleanLoss;
  }

  /** A failure is saved, whatever else it comes to. */
  lemma LossIsSaved(t: State, at: Time, reason: string)
    requires at != 0 && t.disk.agent.compaction.Some?
    ensures FailedCompaction(LostDone(t, at, reason).state.disk.agent, t.disk.agent.compaction.value.id)
  {
  }

  /** A proved end completes the compaction, or fails it when its continuation was not entered. */
  lemma ProvedEnds(t: State, at: Time)
    requires at != 0 && Proved(t.disk.agent)
    ensures var a := Continued(t, at).disk.agent;
            && Current(a, t.disk.agent.compaction.value.id)
            && (a.compaction.value.status == Completed || a.compaction.value.status == CompactionFailed)
  {
    var n := t.(disk := t.disk.(agent := Completing(t.disk.agent)));
    assert Current(n.disk.agent, t.disk.agent.compaction.value.id) && n.disk.agent.compaction.value.status == Completed;
    if Withheld(n.disk) {
      FailureIsSaved(n, at, NOT_ENTERED);
    }
    hide Lost;
  }

  lemma FailureIsSaved(t: State, at: Time, reason: string)
    requires at != 0 && t.disk.agent.compaction.Some?
    ensures FailedCompaction(Lost(t, at, reason).disk.agent, t.disk.agent.compaction.value.id)
  {
  }

  /** How a start ends that its process lived through: the note is out of the queue and was pressed at
      most once, and the compaction did not fail, or failed cleanly, or failed with its note delivered. */
  ghost predicate StartEnds(w: World, n: Done, c: nat) {
    && Current(n.state.disk.agent, c) && n.state.disk.agent.input.None? && !In(n.state.disk, ResumeNote(c), New)
    && (n.state.world.typed == w.typed || n.state.world.typed == w.typed + multiset{ResumeNote(c)})
    && if !FailedCompaction(n.state.disk.agent, c) then n.ok && n.state.world.links[FailureNote(c)] == 0
       else if n.ok then CleanLoss(n.state, c) else NoteDelivered(n.state.disk)
  }

  /** A compaction that has not failed, with its note out of the queue. */
  lemma StartHolds(w: World, t: Durable, c: nat)
    requires Current(t.disk.agent, c) && t.disk.agent.compaction.value.status != CompactionFailed && t.disk.agent.input.None?
    requires !In(t.disk, ResumeNote(c), New)
    requires t.world.typed == w.typed || t.world.typed == w.typed + multiset{ResumeNote(c)}
    ensures StartEnds(w, Done(t, true), c)
  {
    CurrentIsSound(t.disk, t.world);
    hide Inv;
  }

  /** A request that is still queued has no note. */
  lemma StillQueued(t: Durable)
    requires t.disk.agent.input.None?
    ensures t.disk.agent.compaction.Some? && t.disk.agent.compaction.value.status == Queued ==>
      var c := t.disk.agent.compaction.value.id; ResumeNote(c) !in t.disk.files && StartEnds(t.world, Done(t, true), c)
  {
    if t.disk.agent.compaction.Some? && t.disk.agent.compaction.value.status == Queued {
      var c := t.disk.agent.compaction.value.id;
      UnlinkedIsAbsent(t.disk, t.world, ResumeNote(c));
      StartHolds(t.world, t, c);
    }
  }

  /** What stopped the start fails the compaction. */
  lemma StartFails(w: World, t: Durable, c: nat, at: Time, reason: string)
    requires at != 0 && Current(t.disk.agent, c) && t.disk.agent.compaction.value.status != CompactionFailed
    requires t.disk.agent.cleanup.None? && (t.disk.agent.input.Some? ==> !t.disk.agent.input.value.EnvelopeInput?)
    requires t.world.typed == w.typed || t.world.typed == w.typed + multiset{ResumeNote(c)}
    ensures StartEnds(w, LostDone(t, at, reason), c)
    ensures FailedCompaction(LostDone(t, at, reason).state.disk.agent, c)
  {
    LostDoneMeans(t, at, reason);
    hide Inv, LostDone;
  }

  /** The start goes on to look at the screen and at the proof of its end. */
  lemma StartGoesOn(w: World, t: Durable, c: nat, at: Time, refused: bool)
    requires at != 0 && Current(t.disk.agent, c) && t.disk.agent.compaction.value.status == Submitted
    requires t.disk.agent.cleanup.None? && t.disk.agent.input.None? && !In(t.disk, ResumeNote(c), New)
    requires t.world.typed == w.typed || t.world.typed == w.typed + multiset{ResumeNote(c)}
    ensures var seen := ObservationDone(t, at, refused);
            && (!seen.ok ==> StartEnds(w, seen, c) && FailedCompaction(seen.state.disk.agent, c))
            && (seen.ok && Inv(seen.state.disk, seen.state.world) && seen.state.disk.agent.cleanup.None? ==>
                  && StartEnds(w, Done(Continued(seen.state, at), true), c)
                  && Continued(seen.state, at).disk.agent.compaction.value.status != Queued)
  {
    var seen := ObservationDone(t, at, refused);
    ObservationEnds(t, at, refused);
    CurrentIsSound(t.disk, t.world);
    hide Inv, ObservationDone, Continued;
    StartWent(w, t, seen, c);
    if seen.ok && Inv(seen.state.disk, seen.state.world) && seen.state.disk.agent.cleanup.None? {
      if FailedCompaction(seen.state.disk.agent, c) {
        FailedStays(seen.state, at);
      } else {
        var went: Durable := seen.state;
        ContinuedEnds(went, at);
        StartWent(w, went, Done(Continued(went, at), true), c);
      }
    }
  }

  /** From a compaction that was submitted, with its note out of the queue. */
  lemma StartWent(w: World, t: State, n: Done, c: nat)
    requires WentOn(t, n, c) && Current(t.disk.agent, c) && t.disk.agent.compaction.value.status != Queued
    requires !In(t.disk, ResumeNote(c), New) && t.world.links[FailureNote(c)] == 0
    requires t.world.typed == w.typed || t.world.typed == w.typed + multiset{ResumeNote(c)}
    ensures StartEnds(w, n, c) && n.state.disk.agent.compaction.value.status != Queued
  {
  }

  lemma FailedStays(t: State, at: Time)
    requires at != 0 && t.disk.agent.compaction.Some? && t.disk.agent.compaction.value.status == CompactionFailed
    ensures Continued(t, at) == t
  {
    hide Lost;
  }

  /** A finished input is out of the queue, and puts nothing else into it. */
  lemma FinishedLeaves(d: Disk, at: Time, e: Envelope, outcome: Outcome, reason: string, x: EnvelopeID)
    requires at != 0 && outcome != NoOutcome
    ensures In(Finished(d, at, e, outcome, reason), x, New) ==> x != e.id && In(d, x, New)
  {
    var n := Settled(d, e, outcome, reason);
    SettledLeaves(d, e, outcome, reason, x);
    hide Settled;
    if e.stamp.Some? && outcome == Delivered {
      NotesGone(n, n.agent.bands.pending, e.stamp.value, e.id, x);
    }
    hide InputDone, WithoutNotes;
  }

  lemma SettledLeaves(d: Disk, e: Envelope, outcome: Outcome, reason: string, x: EnvelopeID)
    requires outcome != NoOutcome
    ensures In(Settled(d, e, outcome, reason), x, New) ==> x != e.id && In(d, x, New)
  {
  }

  lemma AttemptLeaves(d: Disk, at: Time, e: Envelope, fit: nat, v: Verdict)
    requires at != 0 && In(d, e.id, New) && Result(e, v) != NoOutcome
    ensures !In(Attempted(d, at, e, fit, v), e.id, New)
  {
    hide Finished;
    var stamped := Stamp(e, d.agent.bands.pending, fit);
    var held := Put(d, stamped).(agent := InputBegun(d.agent, at, EnvelopeInput(e.id)));
    var wire := Pasted(stamped, v);
    FinishedLeaves(Put(held, wire), at, wire, Result(stamped, v), v.reason, e.id);
  }

  /** Late proof puts nothing into the queue. */
  lemma LateLeaves(t: Durable, at: Time, hook: Option<Hook>, x: EnvelopeID)
    requires at != 0
    ensures In(LateDone(t.disk, at, hook), x, New) ==> In(t.disk, x, New)
  {
    match LateProof(t.disk, hook)
    case Proof(id) =>
      if id in t.disk.files {
        FileIsSound(t.disk, t.world, id);
        FinishedLeaves(Reopened(t.disk, at, id), at, t.disk.files[id].envelope, Delivered, "", x);
      }
    case _ =>
  }

  ghost function Receipts(d: Disk, dir: Directory): set<EnvelopeID> {
    set id | id in d.files && d.files[id].dir == dir
  }

  ghost function Pointer(p: Option<EnvelopeID>): set<EnvelopeID> {
    if p.Some? then {p.value} else {}
  }

  /** A receipt nothing names: only a cancelled continuation can be one. */
  predicate Orphaned(d: Disk, id: EnvelopeID) {
    In(d, id, FailedDir) && d.agent.lastFailed != Some(id) && d.agent.cleanup != Some(ResultRef(id, FailedDir))
  }

  function Orphans(d: Disk): set<EnvelopeID> {
    set id | id in d.files && Orphaned(d, id)
  }

  function ResumeNotes(compactions: set<nat>): set<EnvelopeID> {
    set c <- compactions :: ResumeNote(c)
  }

  /** Receipts hardly accumulate: between owners `cur` holds at most the latest accepted and the latest
      delivered envelope, and `failed` the latest failure beside the orphans, at most one for each
      compaction that ever failed. */
  lemma ReceiptsBounded(t: Durable)
    requires t.disk.agent.input.None? && t.disk.agent.cleanup.None?
    ensures |Receipts(t.disk, Cur)| <= 2
    ensures Receipts(t.disk, FailedDir) <= Orphans(t.disk) + Pointer(t.disk.agent.lastFailed)
    ensures Orphans(t.disk) <= ResumeNotes(t.world.dead)
    ensures |Receipts(t.disk, FailedDir)| <= |Orphans(t.disk)| + 1 && |Orphans(t.disk)| <= |t.world.dead|
  {
    ReceiptsNamed(t);
    hide Inv;
    var a := t.disk.agent;
    SubsetIsNoLarger(Receipts(t.disk, Cur), Pointer(a.lastAccepted) + Pointer(a.lastDelivered));
    SubsetIsNoLarger(Receipts(t.disk, FailedDir), Orphans(t.disk) + Pointer(a.lastFailed));
    SubsetIsNoLarger(Orphans(t.disk), ResumeNotes(t.world.dead));
    NotesAreFew(t.world.dead);
  }

  lemma ReceiptsNamed(t: Durable)
    requires t.disk.agent.input.None? && t.disk.agent.cleanup.None?
    ensures Receipts(t.disk, Cur) <= Pointer(t.disk.agent.lastAccepted) + Pointer(t.disk.agent.lastDelivered)
    ensures Receipts(t.disk, FailedDir) <= Orphans(t.disk) + Pointer(t.disk.agent.lastFailed)
    ensures Orphans(t.disk) <= ResumeNotes(t.world.dead)
  {
    forall id <- t.disk.files ensures FileSound(id, t.disk.files[id], t.disk.agent, t.world) {
    }
    hide Inv;
  }

  lemma {:induction false} NotesAreFew(compactions: set<nat>)
    ensures |ResumeNotes(compactions)| <= |compactions|
  {
    if compactions != {} {
      var c :| c in compactions;
      NotesAreFew(compactions - {c});
      assert ResumeNotes(compactions) == ResumeNotes(compactions - {c}) + {ResumeNote(c)};
    }
  }

  /** An orphan stays whatever is filed after it. */
  lemma OrphanStays(t: Durable, id: EnvelopeID, e: Envelope, outcome: Outcome, reason: string)
    requires Orphaned(t.disk, id) && !Holds(t.disk.agent, id)
    requires In(t.disk, e.id, New) && Holds(t.disk.agent, e.id) && outcome != NoOutcome && t.disk.agent.cleanup.None?
    ensures CancelledResume(t.disk.files[id].envelope)
    ensures Orphaned(Settled(t.disk, e, outcome, reason), id)
  {
    FileIsSound(t.disk, t.world, id);
  }

  /** A compaction that fails while its continuation has a file, and was not delivered. */
  ghost predicate LosesNote(t: Durable) {
    && t.disk.agent.compaction.Some? && t.disk.agent.compaction.value.status != CompactionFailed
    && (t.disk.agent.input.Some? ==> !t.disk.agent.input.value.EnvelopeInput?) && t.disk.agent.cleanup.None?
    && ResumeNote(t.disk.agent.compaction.value.id) in t.disk.files && !NoteDelivered(t.disk)
  }

  /** The write of a failing compaction that files the continuation: a note already filed is taken
      back first. */
  function FiledAt(d: Disk): nat
    requires d.agent.compaction.Some?
  {
    if In(d, ResumeNote(d.agent.compaction.value.id), New) then 3 else 5
  }

  /** Where the files are after each write of a cancellation. */
  lemma CancelFiles(d: Disk, c: nat, reason: string, k: nat)
    requires ResumeNote(c) in d.files && d.files[ResumeNote(c)].envelope.outcome != Delivered
    requires d.files[ResumeNote(c)].envelope.id == ResumeNote(c) && k < |CancelTrace(d, c, reason)|
    requires d.agent.cleanup.None? && (In(d, ResumeNote(c), New) ==> d.agent.lastFailed != Some(ResumeNote(c)))
    ensures var id, n := ResumeNote(c), CancelTrace(d, c, reason)[k];
            var filed := if In(d, id, New) then 2 else 4;
            && (forall x <- d.files :: x != id ==> x in n.files && n.files[x] == d.files[x])
            && n.files.Keys == d.files.Keys
            && n.files[id].dir == (if k >= filed then FailedDir else if k >= filed - 3 then New else d.files[id].dir)
            && (k == |CancelTrace(d, c, reason)| - 1 ==> k >= filed)
  {
  }

  /** What the record says after each write of a cancellation. */
  lemma CancelReceipts(d: Disk, c: nat, reason: string, k: nat)
    requires ResumeNote(c) in d.files && d.files[ResumeNote(c)].envelope.outcome != Delivered
    requires d.files[ResumeNote(c)].envelope.id == ResumeNote(c) && k < |CancelTrace(d, c, reason)|
    requires d.agent.cleanup.None? && (In(d, ResumeNote(c), New) ==> d.agent.lastFailed != Some(ResumeNote(c)))
    ensures var id, n := ResumeNote(c), CancelTrace(d, c, reason)[k];
            var filed := if In(d, id, New) then 2 else 4;
            var named := k == filed + 1;
            && n.agent.compaction == d.agent.compaction && n.agent.input == d.agent.input && n.agent.cleanup.None?
            && n.agent.lastFailed == (if named then Some(id) else if k >= filed - 2 && d.agent.lastFailed == Some(id) then None else d.agent.lastFailed)
            && n.agent.lastAccepted == (if k >= filed - 2 && d.agent.lastAccepted == Some(id) && !In(d, id, New) then None
                                        else if named && d.agent.lastAccepted == Some(id) then None else d.agent.lastAccepted)
            && (named ==> d.agent.lastFailed.None? || d.agent.lastFailed == Some(id))
            && (k <= filed || named)
            && (k == |CancelTrace(d, c, reason)| - 1 ==> named || (d.agent.lastFailed.Some? && d.agent.lastFailed != Some(id)))
  {
  }

  /** Where one cancelled note is after each write of a cancellation. */
  lemma CancelSteps(d: Disk, c: nat, reason: string, k: nat)
    requires ResumeNote(c) in d.files && d.files[ResumeNote(c)].envelope.outcome != Delivered
    requires d.files[ResumeNote(c)].envelope.id == ResumeNote(c) && k < |CancelTrace(d, c, reason)|
    requires d.agent.cleanup.None? && (In(d, ResumeNote(c), New) ==> d.agent.lastFailed != Some(ResumeNote(c)))
    ensures var id, n := ResumeNote(c), CancelTrace(d, c, reason)[k];
            var filed := if In(d, id, New) then 2 else 4;
            var named := k == filed + 1;
            && (forall x <- d.files :: x != id ==> x in n.files && n.files[x] == d.files[x])
            && n.files.Keys == d.files.Keys
            && n.files[id].dir == (if k >= filed then FailedDir else if k >= filed - 3 then New else d.files[id].dir)
            && (k == |CancelTrace(d, c, reason)| - 1 ==> k >= filed)
            && n.agent.compaction == d.agent.compaction && n.agent.input == d.agent.input && n.agent.cleanup.None?
            && n.agent.lastFailed == (if named then Some(id) else if k >= filed - 2 && d.agent.lastFailed == Some(id) then None else d.agent.lastFailed)
            && n.agent.lastAccepted == (if k >= filed - 2 && d.agent.lastAccepted == Some(id) && !In(d, id, New) then None
                                        else if named && d.agent.lastAccepted == Some(id) then None else d.agent.lastAccepted)
            && (named ==> d.agent.lastFailed.None? || d.agent.lastFailed == Some(id))
            && (k <= filed || named)
            && (k == |CancelTrace(d, c, reason)| - 1 ==> named || (d.agent.lastFailed.Some? && d.agent.lastFailed != Some(id)))
  {
    CancelFiles(d, c, reason, k);
    CancelReceipts(d, c, reason, k);
    hide CancelTrace;
  }

  /** The states of a failing compaction: the saved record, the cancellation, the notice. */
  lemma FailSteps(t: Durable, at: Time, reason: string, n: nat)
    requires at != 0 && LosesNote(t) && n < |FailTrace(t, at, reason)|
    ensures var c, d := t.disk.agent.compaction.value.id, FailTrace(t, at, reason)[n].disk;
            var f := t.disk.(agent := FailureOf(t.disk, at, reason));
            var cancel := CancelTrace(f, c, reason);
            && SameReceipts(f.agent, t.disk.agent) && f.agent.input.None? && FailedCompaction(f.agent, c)
            && d == if n == 0 then t.disk
                    else if n <= |cancel| then cancel[n - 1]
                    else Queue(State(cancel[|cancel| - 1], t.world), FailureEnvelope(f.agent, at, reason)).disk
  {
    hide Inv, CancelTrace;
    FailureRecorded(t.disk, at, reason);
    hide FailureOf, LosesNote;
    TraceSteps(t, at, reason, n);
  }

  lemma FailureRecorded(d: Disk, at: Time, reason: string)
    requires at != 0 && d.agent.compaction.Some?
    ensures var a := FailureOf(d, at, reason);
            SameReceipts(a, d.agent) && a.input.None? && FailedCompaction(a, d.agent.compaction.value.id)
  {
  }

  lemma TraceSteps(t: State, at: Time, reason: string, n: nat)
    requires at != 0 && t.disk.agent.compaction.Some? && n < |FailTrace(t, at, reason)|
    ensures var c, d := t.disk.agent.compaction.value.id, FailTrace(t, at, reason)[n].disk;
            var f := t.disk.(agent := FailureOf(t.disk, at, reason));
            var cancel := CancelTrace(f, c, reason);
            d == if n == 0 then t.disk
                 else if n <= |cancel| then cancel[n - 1]
                 else Queue(State(cancel[|cancel| - 1], t.world), FailureEnvelope(f.agent, at, reason)).disk
  {
    hide CancelTrace, FailureOf, FailureEnvelope, NoteDelivered;
  }

  lemma NoteBefore(t: Durable)
    requires LosesNote(t)
    ensures var a, id := t.disk.agent, ResumeNote(t.disk.agent.compaction.value.id);
            && t.disk.files[id].envelope.id == id && t.disk.files[id].envelope.outcome != Delivered && a.cleanup.None?
            && !Abandoned(a, id) && !Holds(a, id)
            && (a.lastFailed == Some(id) ==> In(t.disk, id, FailedDir)) && (a.lastAccepted == Some(id) ==> In(t.disk, id, Cur))
            && (In(t.disk, id, FailedDir) ==> a.lastFailed == Some(id))
            && (In(t.disk, id, Cur) ==> a.lastAccepted == Some(id) && a.lastFailed != Some(id))
  {
    var id := ResumeNote(t.disk.agent.compaction.value.id);
    FileIsSound(t.disk, t.world, id);
    ReceiptsResolve(t.disk, t.world, id);
    CurrentIsSound(t.disk, t.world);
    hide Inv;
  }

  /** What a failing compaction that found the disk `d` has made of it by its write `n`. */
  ghost predicate Losing(d: Disk, id: EnvelopeID, n: nat, filed: nat, e: Disk)
    requires id in d.files && id.ResumeNote?
  {
    && (forall x <- d.files :: x != id ==> x in e.files && e.files[x] == d.files[x])
    && id in e.files && e.files[id].dir == (if n >= filed then FailedDir else if n >= filed - 3 then New else d.files[id].dir)
    && (n > 0 ==> e.agent.input.None? && FailedCompaction(e.agent, id.compaction)) && e.agent.cleanup.None?
    && (n < filed - 2 ==> e.agent.lastFailed == d.agent.lastFailed && e.agent.lastAccepted == d.agent.lastAccepted)
    && (filed - 2 <= n <= filed ==> e.agent.lastFailed == if d.agent.lastFailed == Some(id) then None else d.agent.lastFailed)
    && (n > filed ==> e.agent.lastFailed == if d.agent.lastFailed.Some? then d.agent.lastFailed else Some(id))
    && (n >= filed - 2 ==> e.agent.lastAccepted == if d.agent.lastAccepted == Some(id) then None else d.agent.lastAccepted)
  }

  /** The writes of the cancellation. */
  lemma LosingCancels(d: Disk, a: Agent, c: nat, reason: string, n: nat)
    requires ResumeNote(c) in d.files && d.files[ResumeNote(c)].envelope.outcome != Delivered
    requires d.files[ResumeNote(c)].envelope.id == ResumeNote(c) && d.agent.cleanup.None?
    requires SameReceipts(a, d.agent) && a.input.None? && FailedCompaction(a, c)
    requires d.agent.lastFailed == Some(ResumeNote(c)) ==> In(d, ResumeNote(c), FailedDir)
    requires d.agent.lastAccepted == Some(ResumeNote(c)) ==> In(d, ResumeNote(c), Cur)
    requires 0 < n <= |CancelTrace(d.(agent := a), c, reason)|
    ensures var trace, filed := CancelTrace(d.(agent := a), c, reason), if In(d, ResumeNote(c), New) then 3 else 5;
            && Losing(d, ResumeNote(c), n, filed, trace[n - 1])
            && (n == |trace| ==> Losing(d, ResumeNote(c), n + 1, filed, trace[n - 1]))
  {
    CancelSteps(d.(agent := a), c, reason, n - 1);
    hide CancelTrace;
  }

  /** The disks of the cancellation within a failing compaction. */
  function Cancelling(t: State, at: Time, reason: string): seq<Disk>
    requires at != 0 && t.disk.agent.compaction.Some?
  {
    CancelTrace(t.disk.(agent := FailureOf(t.disk, at, reason)), t.disk.agent.compaction.value.id, reason)
  }

  lemma NoteCancelled(t: Durable, at: Time, reason: string, n: nat)
    requires at != 0 && LosesNote(t) && 0 < n <= |Cancelling(t, at, reason)|
    ensures var id, trace := ResumeNote(t.disk.agent.compaction.value.id), Cancelling(t, at, reason);
            && Losing(t.disk, id, n, FiledAt(t.disk), trace[n - 1])
            && (n == |trace| ==> Losing(t.disk, id, n + 1, FiledAt(t.disk), trace[n - 1]))
  {
    NoteBefore(t);
    FailSteps(t, at, reason, 0);
    hide Inv, FailTrace, CancelTrace, FailureOf, FailureEnvelope, LosesNote, Queue, Abandoned, NoteDelivered;
    LosingCancels(t.disk, FailureOf(t.disk, at, reason), t.disk.agent.compaction.value.id, reason, n);
  }

  lemma NoteLast(t: Durable, at: Time, reason: string, n: nat)
    requires at != 0 && LosesNote(t) && |Cancelling(t, at, reason)| < n < |FailTrace(t, at, reason)|
    ensures Losing(t.disk, ResumeNote(t.disk.agent.compaction.value.id), n, FiledAt(t.disk), FailTrace(t, at, reason)[n].disk)
  {
    var trace := Cancelling(t, at, reason);
    LosingLast(t, at, reason, n);
    NoteCancelled(t, at, reason, |trace|);
    FailSteps(t, at, reason, n);
    hide Inv, FailTrace, CancelTrace, FailureOf, FailureEnvelope, LosesNote, Queue, Losing;
    QueueKeepsLosing(t.disk, ResumeNote(t.disk.agent.compaction.value.id), n, FiledAt(t.disk),
                     State(trace[|trace| - 1], t.world), FailureEnvelope(FailureOf(t.disk, at, reason), at, reason));
  }

  /** The continuation, the receipts and what else the record holds, after each write. */
  lemma NoteAfter(t: Durable, at: Time, reason: string, n: nat)
    requires at != 0 && LosesNote(t) && n < |FailTrace(t, at, reason)|
    ensures Losing(t.disk, ResumeNote(t.disk.agent.compaction.value.id), n, FiledAt(t.disk), FailTrace(t, at, reason)[n].disk)
  {
    if n > |Cancelling(t, at, reason)| {
      NoteLast(t, at, reason, n);
    } else if n > 0 {
      NoteCancelled(t, at, reason, n);
      FailSteps(t, at, reason, n);
    } else {
      NoteBefore(t);
    }
  }

  lemma QueueKeepsLosing(d: Disk, id: EnvelopeID, n: nat, filed: nat, t: State, e: Envelope)
    requires id in d.files && id.ResumeNote? && Losing(d, id, n, filed, t.disk)
    ensures Losing(d, id, n, filed, Queue(t, e).disk)
  {
    QueueSpares(t, e);
  }

  lemma LosingLast(t: Durable, at: Time, reason: string, n: nat)
    requires at != 0 && LosesNote(t) && n < |FailTrace(t, at, reason)|
    ensures n <= |CancelTrace(t.disk.(agent := FailureOf(t.disk, at, reason)), t.disk.agent.compaction.value.id, reason)| + 1
  {
    hide Inv, CancelTrace;
  }

  lemma QueueSpares(t: State, e: Envelope)
    ensures Queue(t, e).disk.agent == t.disk.agent
    ensures forall x <- t.disk.files :: x in Queue(t, e).disk.files && Queue(t, e).disk.files[x] == t.disk.files[x]
  {
  }

  /** At every crash point, and for an owner that lives, the continuation of a failed compaction is an
      orphan exactly when it was just filed, or is filed while another failure keeps its receipt. */
  lemma OrphanIff(t: Durable, at: Time, reason: string, n: nat)
    requires at != 0 && LosesNote(t) && n < |FailTrace(t, at, reason)|
    ensures var a, id := t.disk.agent, ResumeNote(t.disk.agent.compaction.value.id);
            Orphaned(FailTrace(t, at, reason)[n].disk, id) <==>
            n >= FiledAt(t.disk) && (n == FiledAt(t.disk) || (a.lastFailed.Some? && a.lastFailed != Some(id)))
  {
    NoteBefore(t);
    NoteAfter(t, at, reason, n);
    hide Inv, FailTrace, LosesNote;
  }

  /** At every crash point the continuation is marooned exactly while it is queued after its
      compaction was saved as failed. */
  lemma MaroonedIff(t: Durable, at: Time, reason: string, n: nat)
    requires at != 0 && LosesNote(t) && n < |FailTrace(t, at, reason)|
    ensures var id := ResumeNote(t.disk.agent.compaction.value.id);
            Marooned(FailTrace(t, at, reason)[n].disk, id) <==> 0 < n && FiledAt(t.disk) - 3 <= n < FiledAt(t.disk)
  {
    NoteBefore(t);
    NoteAfter(t, at, reason, n);
    hide Inv, FailTrace, LosesNote;
  }

  /** A request maroons exactly one note: that of the current compaction, if it is queued and that has
      not failed. No compaction need ever fail for it. */
  lemma RequestMaroonsIff(t: Durable, id: EnvelopeID, c: nat, at: Time, resume: string, from: Sender)
    requires t.disk.agent.input.None? && c !in t.world.compactions
    ensures var d := t.disk.(agent := t.disk.agent.(compaction := Some(NewCompaction(c, at, resume, from)), changedAt := at));
            Marooned(d, id) && !Marooned(t.disk, id) <==>
            && t.disk.agent.compaction.Some? && id == ResumeNote(t.disk.agent.compaction.value.id)
            && In(t.disk, id, New) && t.disk.agent.compaction.value.status != CompactionFailed
  {
    FreshIsOut(t.disk, t.world, c);
    hide Inv;
  }

  /** At every crash point of every operation the marooned notes are those whose compaction a request
      replaced while they were queued, for good, and those queued after their compaction was saved as
      failed. */
  lemma MaroonedMeans(t: Durable, id: EnvelopeID)
    ensures Marooned(t.disk, id) <==>
            && id.ResumeNote?
            && (id.compaction in t.world.replaced
                || (id.compaction in t.world.dead && In(t.disk, id, New) && !Holds(t.disk.agent, id)))
  {
    if id in t.disk.files {
      FileIsSound(t.disk, t.world, id);
    }
    if id.ResumeNote? && id.compaction in t.world.replaced {
      assert ResumeNote(id.compaction) in t.world.stranded;
    }
  }

  /** The one kind of write after which a record dangles: a filed note of a failed compaction was taken
      back while the record names it. */
  lemma DanglesByTakingBack(t: Durable, n: Durable, hook: Hook)
    requires Steady(t.disk, n.disk) && n.disk.agent.input.None? && Dangling(n.disk, hook)
    requires forall id :: !Adrift(t.disk, id)
    ensures exists id :: TakenBack(t.disk, n.disk, id) && Adrift(n.disk, id)
  {
    var a := n.disk.agent;
    hide Inv;
    var id := if a.lastFailed.Some? && MovedBack(n.disk, a.lastFailed.value) then a.lastFailed.value else a.lastAccepted.value;
    assert Adrift(n.disk, id);
  }

  /** A marooned note holds the queue: a drain never takes it up, and takes up only reserved mail and
      mail that is earlier. */
  lemma MaroonedHolds(t: Durable, id: EnvelopeID, now: Time)
    requires Marooned(t.disk, id)
    ensures var next := Picked(t.disk, Mail(t.disk), now).next;
            next.Some? && (next.value.id != id ==> Reserved(t.disk.agent, next.value) || Earlier(next.value, t.disk.files[id].envelope))
  {
    MailIsListing(t.disk, t.world);
    PickIsFirst(t.disk, now);
    FileIsSound(t.disk, t.world, id);
    var next := Picked(t.disk, Mail(t.disk), now).next;
    if next.Some? {
      FileIsSound(t.disk, t.world, next.value.id);
    }
    hide Inv, Picked, CompletedResume;
  }

  /** A marooned note is stuck, now and whenever this holds again, exactly when no mail is reserved and
      no due mail is earlier. */
  lemma MaroonedIsStuckIff(t: Durable, id: EnvelopeID, now: Time)
    requires Marooned(t.disk, id)
    ensures Stuck(t.disk, id, now) <==>
            forall k | In(t.disk, k, New) ::
              var f := t.disk.files[k].envelope;
              !Reserved(t.disk.agent, f) && (k != id && Due(f, now) && !Expired(f, now) ==> Earlier(t.disk.files[id].envelope, f))
  {
    FileIsSound(t.disk, t.world, id);
    hide Inv, Earlier, Reserved;
  }

  /** Requesting another compaction frees nothing: what was stuck on a marooned note is stuck on it
      still. */
  lemma RequestKeepsStuck(t: Durable, id: EnvelopeID, now: Time, c: nat, at: Time, resume: string, from: Sender)
    requires Marooned(t.disk, id) && Stuck(t.disk, id, now) && c !in t.world.compactions
    ensures var d := t.disk.(agent := t.disk.agent.(compaction := Some(NewCompaction(c, at, resume, from)), changedAt := at));
            Marooned(d, id) && Stuck(d, id, now)
  {
    FileIsSound(t.disk, t.world, id);
    hide Earlier;
    assert t.world.links[id] > 0 && id.compaction in t.world.compactions;
    hide Inv;
  }

  /** With a composer that is free and no startup to recover, a turn that has mail to take up is held
      back exactly when a resume note is stuck. */
  lemma TurnHeldBackIff(t: Durable, at: Time, turn: Turn)
    requires turn.free && t.disk.agent.input.None? && Picked(t.disk, Mail(t.disk), at).next.Some?
    requires !FailedStartup(Picked(t.disk, Mail(t.disk), at).disk)
    ensures var p := Picked(t.disk, Mail(t.disk), at);
            && In(p.disk, p.next.value.id, New)
            && (HeldBack(p.disk, p.next.value, turn) <==> exists id :: Stuck(t.disk, id, at))
  {
    hide Inv, CompletedResume, FailedStartup, Mail, Stuck;
    StuckIsPicked(t.disk, t.world, at);
    MailIsListing(t.disk, t.world);
    var pending := Mail(t.disk);
    ListedOnes(t.disk, pending);
    if ReservedIn(t.disk.agent, pending) == |pending| {
      SweepSpares(t.disk, t.world, pending, DueIn(pending, at), at);
    }
  }

  /** A turn that is not held back and submits presses the key once. */
  lemma DrainEnds(t: Durable, at: Time, turn: Turn)
    requires at != 0 && turn.verdict.Sent?
    ensures var p := Picked(t.disk, Mail(t.disk), at);
            p.next.Some? && In(p.disk, p.next.value.id, New) && !HeldBack(p.disk, p.next.value, turn) ==>
              Drained(t, at, [turn]).state.world.typed == t.world.typed + multiset{p.next.value.id}
  {
    hide Inv, Picked, Attempted, LateDone, HeldBack;
    DrainUnfolds(t, at, [turn]);
    var p := Picked(t.disk, Mail(t.disk), at);
    if p.next.Some? && In(p.disk, p.next.value.id, New) && !HeldBack(p.disk, p.next.value, turn) {
      var n := DeliveryDone(t.(disk := p.disk), at, p.next.value, turn.fit, turn.verdict, turn.late);
      assert [turn][1..] == [];
      DrainUnfolds(n.state, at, []);
    }
  }

  /** Then such a turn ends the drain and types nothing; any other that gets as far as the submit key
      presses it. */
  lemma TurnTypesUnlessStuck(t: Durable, at: Time, turn: Turn)
    requires at != 0 && turn.free && t.disk.agent.input.None? && Picked(t.disk, Mail(t.disk), at).next.Some?
    requires !FailedStartup(Picked(t.disk, Mail(t.disk), at).disk)
    ensures (exists id :: Stuck(t.disk, id, at)) ==>
              Drained(t, at, [turn]) == Done(State(Picked(t.disk, Mail(t.disk), at).disk, t.world), true)
    ensures turn.verdict.Sent? ==>
              (Drained(t, at, [turn]).state.world.typed == t.world.typed <==> exists id :: Stuck(t.disk, id, at))
  {
    TurnHeldBackIff(t, at, turn);
    hide Inv, HeldBack, Picked, Drained, Stuck, FailedStartup, Mail;
    DrainUnfolds(t, at, [turn]);
    if turn.verdict.Sent? {
      DrainEnds(t, at, turn);
    }
  }

  /** A crash point of a failing compaction leaves the record dangling exactly when a filed note was
      just taken back, unless another retained failure is proved first. */
  lemma DanglingIff(t: Durable, at: Time, reason: string, n: nat, hook: Hook)
    requires at != 0 && LosesNote(t) && 0 < n < |FailTrace(t, at, reason)|
    requires forall id :: t.disk.agent.lastFailed == Some(id) || t.disk.agent.lastAccepted == Some(id) ==> !MovedBack(t.disk, id)
    ensures var a, id := t.disk.agent, ResumeNote(t.disk.agent.compaction.value.id);
            Dangling(FailTrace(t, at, reason)[n].disk, hook) <==>
            && n == 2 && !In(t.disk, id, New)
            && (a.lastFailed.Some? && a.lastFailed != Some(id) ==>
                  !(In(t.disk, a.lastFailed.value, FailedDir) && Proves(hook, t.disk.files[a.lastFailed.value].envelope)))
  {
    NoteBefore(t);
    NoteAfter(t, at, reason, n);
    OthersStay(t, at, reason, n);
    hide Inv, FailTrace, LosesNote, Losing, Dangling, MovedBack, Abandoned;
    LosingDangles(t.disk, ResumeNote(t.disk.agent.compaction.value.id), n, FailTrace(t, at, reason)[n].disk, hook);
  }

  lemma LosingDangles(d: Disk, id: EnvelopeID, n: nat, e: Disk, hook: Hook)
    requires id in d.files && id.ResumeNote? && n > 0 && Losing(d, id, n, if In(d, id, New) then 3 else 5, e)
    requires (d.agent.lastFailed == Some(id) <==> In(d, id, FailedDir)) && (d.agent.lastAccepted == Some(id) <==> In(d, id, Cur))
    requires forall x | x != id && (d.agent.lastFailed == Some(x) || d.agent.lastAccepted == Some(x)) ::
      x in d.files && x in e.files && !MovedBack(e, x)
    ensures var a := d.agent;
            Dangling(e, hook) <==>
            && n == 2 && !In(d, id, New)
            && (a.lastFailed.Some? && a.lastFailed != Some(id) ==>
                  !(In(d, a.lastFailed.value, FailedDir) && Proves(hook, d.files[a.lastFailed.value].envelope)))
  {
    hide Proves;
  }

  /** The receipts of other envelopes lie where they did. */
  lemma OthersStay(t: Durable, at: Time, reason: string, n: nat)
    requires at != 0 && LosesNote(t) && n < |FailTrace(t, at, reason)|
    ensures var d, id := FailTrace(t, at, reason)[n].disk, ResumeNote(t.disk.agent.compaction.value.id);
            forall x | x != id && (t.disk.agent.lastFailed == Some(x) || t.disk.agent.lastAccepted == Some(x)) ::
              x in t.disk.files && x in d.files && (MovedBack(d, x) <==> MovedBack(t.disk, x))
  {
    var id := ResumeNote(t.disk.agent.compaction.value.id);
    NamesLie(t);
    NoteAfter(t, at, reason, n);
    NoteBefore(t);
    hide Inv, LosesNote;
    RestStays(t.disk, id, n, FiledAt(t.disk), FailTrace(t, at, reason)[n].disk);
  }

  /** What the record names is in the inbox. */
  lemma NamesLie(t: Durable)
    ensures t.disk.agent.lastFailed.Some? ==> t.disk.agent.lastFailed.value in t.disk.files
    ensures t.disk.agent.lastAccepted.Some? ==> t.disk.agent.lastAccepted.value in t.disk.files
  {
  }

  lemma RestStays(d: Disk, id: EnvelopeID, n: nat, filed: nat, e: Disk)
    requires id in d.files && id.ResumeNote? && Losing(d, id, n, filed, e)
    requires n == 0 ==> e == d
    requires d.agent.compaction.Some? && id.compaction == d.agent.compaction.value.id && !Abandoned(d.agent, id)
    ensures forall x <- d.files :: x != id ==> x in e.files && (MovedBack(e, x) <==> MovedBack(d, x))
  {
  }

  /** A compaction once saved as failed stays failed: no prompt is admitted for it and no drain types
      its continuation. */
  lemma FailedIsFinal(t: Durable, e: Envelope, matches: bool, sameSession: bool)
    requires t.disk.agent.compaction.Some? && t.disk.agent.compaction.value.id in t.world.dead
    ensures t.disk.agent.compaction.value.status == CompactionFailed
    ensures PromptBlocked(t.disk.agent, matches, sameSession)
    ensures IsResume(e) ==> !CompletedResume(t.disk.agent, e)
  {
    assert CompactionSound(t.disk.agent, t.world);
  }

  /** Exactly when a band note is published again: it is pending, it waited long enough, and no
      directory holds it any more, although it may have been typed before. */
  lemma {:induction false} NoteRepublishedIff(t: State, now: Time, notes: seq<Envelope>, i: nat)
    requires i < |notes| && forall j, k | 0 <= j < k < |notes| :: notes[j].id != notes[k].id
    ensures var n := NotesQueued(t, now, notes);
            var due := now - notes[i].createdAt >= WATCHDOG_TIMEOUT && notes[i].id !in t.disk.files;
            && n.world.links[notes[i].id] == t.world.links[notes[i].id] + (if due then 1 else 0)
            && n.world.typed == t.world.typed && n.disk.agent == t.disk.agent
            && (notes[i].id in n.disk.files <==> notes[i].id in t.disk.files || due)
            && (due ==> n.disk.files[notes[i].id] == File(New, notes[i]))
  {
    var last := |notes| - 1;
    if i < last {
      assert notes[..last][i] == notes[i];
      NoteRepublishedIff(t, now, notes[..last], i);
    } else {
      NotesUntouched(t, now, notes[..last], notes[i].id);
    }
  }

  lemma {:induction false} NotesUntouched(t: State, now: Time, notes: seq<Envelope>, id: EnvelopeID)
    requires forall n <- notes :: n.id != id
    ensures var n := NotesQueued(t, now, notes);
            && n.world.links[id] == t.world.links[id] && (id in n.disk.files <==> id in t.disk.files)
            && (id in t.disk.files ==> n.disk.files[id] == t.disk.files[id])
            && n.world.typed == t.world.typed && n.disk.agent == t.disk.agent
  {
    if notes != [] {
      NotesUntouched(t, now, notes[..|notes| - 1], id);
    }
  }

  /** An unverified band note loses its only receipt to the next failed result, while it is still
      pending. The next publication then queues it again, so it can be typed a second time. */
  lemma NoteTypedAgain(t: Durable, at: Time, now: Time, e: Envelope, fit: nat, v: Verdict, i: nat)
    requires at != 0 && t.disk.agent.input.None? && t.disk.agent.cleanup.None?
    requires var notes := t.disk.agent.bands.pending;
             && i < |notes| && (forall j, k | 0 <= j < k < |notes| :: notes[j].id != notes[k].id)
             && t.disk.agent.lastFailed == Some(notes[i].id) && now - notes[i].createdAt >= WATCHDOG_TIMEOUT
    requires In(t.disk, e.id, New) && t.disk.files[e.id].envelope == e && e.id.Message?
    requires DirectoryOf(Result(e, v)) == FailedDir && Result(e, v) != NoOutcome
    ensures var notes := t.disk.agent.bands.pending;
            var d := Attempted(t.disk, at, e, fit, v);
            && d.agent.bands == t.disk.agent.bands && notes[i].id !in d.files
            && var n := NotesQueued(State(d, t.world), now, notes);
            && In(n.disk, notes[i].id, New) && n.disk.files[notes[i].id].envelope == notes[i]
            && n.world.links[notes[i].id] == t.world.links[notes[i].id] + 1
            && n.world.typed == t.world.typed && n.disk.agent.input.None?
  {
    var notes := t.disk.agent.bands.pending;
    var note := notes[i].id;
    NotesAreBands(t.disk, t.world);
    FileIsSound(t.disk, t.world, e.id);
    ReceiptsResolve(t.disk, t.world, note);
    var d := Attempted(t.disk, at, e, fit, v);
    NoteLosesReceipt(t, at, e, fit, v, note);
    NoteRepublishedIff(State(d, t.world), now, notes, i);
  }

  /** The record goes back to having no input and the same notes; the replaced receipt is gone. */
  lemma NoteLosesReceipt(t: Durable, at: Time, e: Envelope, fit: nat, v: Verdict, note: EnvelopeID)
    requires at != 0 && t.disk.agent.input.None? && t.disk.agent.cleanup.None?
    requires In(t.disk, e.id, New) && t.disk.files[e.id].envelope == e
    requires t.disk.agent.lastFailed == Some(note) && note != e.id && In(t.disk, note, FailedDir)
    requires Result(e, v) != Delivered && Result(e, v) != Accepted && Result(e, v) != NoOutcome
    ensures var d := Attempted(t.disk, at, e, fit, v);
            note !in d.files && d.agent.bands == t.disk.agent.bands && d.agent.input.None?
  {
    hide Inv, Finished;
    var stamped := Stamp(e, t.disk.agent.bands.pending, fit);
    var held := Put(t.disk, stamped).(agent := InputBegun(t.disk.agent, at, EnvelopeInput(e.id)));
    var wire := Pasted(stamped, v);
    FailureFinished(Put(held, wire), at, wire, Result(e, v), v.reason, note);
  }

  lemma FailureFinished(d: Disk, at: Time, e: Envelope, outcome: Outcome, reason: string, note: EnvelopeID)
    requires at != 0 && Holds(d.agent, e.id)
    requires d.agent.cleanup.None? && d.agent.lastFailed == Some(note) && note != e.id && In(d, note, FailedDir)
    requires outcome != Delivered && outcome != Accepted && outcome != NoOutcome
    ensures var n := Finished(d, at, e, outcome, reason);
            note !in n.files && n.agent.bands == d.agent.bands && n.agent.input.None?
  {
    FailureReplaces(d, e, outcome, reason, note);
    hide Settled;
  }

  lemma FailureReplaces(d: Disk, e: Envelope, outcome: Outcome, reason: string, note: EnvelopeID)
    requires d.agent.cleanup.None? && d.agent.lastFailed == Some(note) && note != e.id && In(d, note, FailedDir)
    requires outcome != Delivered && outcome != Accepted && outcome != NoOutcome
    ensures var n := Settled(d, e, outcome, reason);
            && note !in n.files && n.agent.bands == d.agent.bands && n.agent.input == d.agent.input
            && n.agent.lastFailed == Some(e.id)
  {
  }
}
