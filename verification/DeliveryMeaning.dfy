/** What late proof, the continuation of a compaction and the texts the program writes itself come to,
    in the fields of the record, the envelope and the hook. */
module DeliveryMeaning {
  import opened Records
  import opened AgentStep
  import opened DeliveryState
  import opened DeliverySteps
  import opened DeliverySpec
  import opened DeliveryTheorems
  import opened DeliveryDrains

  /** The envelope lies in `cur` as delivered, under its only receipt, and no other file was moved or
      rewritten. */
  ghost predicate ProvedDelivered(d: Disk, n: Disk, id: EnvelopeID) {
    && In(n, id, Cur) && n.files[id].envelope.outcome == Delivered && n.agent.lastDelivered == Some(id)
    && n.agent.lastFailed != Some(id) && n.agent.lastAccepted != Some(id)
    && forall x <- n.files :: x != id ==> x in d.files && n.files[x] == d.files[x]
  }

  /** Late proof only ever rests on a prompt the hook reported: a named receipt that was unverified or
      accepted, no younger than the hook, becomes delivered, the failed one first. */
  lemma LateMeans(t: Durable, at: Time, hook: Option<Hook>)
    requires at != 0 && t.disk.agent.input.None? && t.disk.agent.cleanup.None?
    ensures hook.None? || (forall id | t.disk.agent.lastFailed == Some(id) || t.disk.agent.lastAccepted == Some(id) :: id !in hook.value.proves) ==>
      LateDone(t.disk, at, hook) == t.disk
    ensures LateDone(t.disk, at, hook) != t.disk ==> LateProof(t.disk, hook).Proof?
    ensures LateProof(t.disk, hook).Proof? ==>
      var id := LateProof(t.disk, hook).id;
      && hook.Some? && (t.disk.agent.lastFailed == Some(id) || t.disk.agent.lastAccepted == Some(id))
      && id in t.disk.files && id in hook.value.proves && t.disk.files[id].envelope.createdAt <= hook.value.at
      && t.disk.files[id].envelope.outcome in {Unverified, Accepted}
      && ProvedDelivered(t.disk, LateDone(t.disk, at, hook), id)
    ensures forall id | hook.Some? && t.disk.agent.lastFailed == Some(id) && In(t.disk, id, FailedDir) && id in hook.value.proves
                        && t.disk.files[id].envelope.createdAt <= hook.value.at
                        && t.disk.files[id].envelope.outcome in {Unverified, Accepted} ::
      LateProof(t.disk, hook) == Proof(id) && ProvedDelivered(t.disk, LateDone(t.disk, at, hook), id)
    ensures forall id | hook.Some? && t.disk.agent.lastAccepted == Some(id) && In(t.disk, id, Cur) && id in hook.value.proves
                        && t.disk.files[id].envelope.createdAt <= hook.value.at
                        && t.disk.files[id].envelope.outcome in {Unverified, Accepted}
                        && (t.disk.agent.lastFailed.Some? ==>
                              && In(t.disk, t.disk.agent.lastFailed.value, FailedDir)
                              && (t.disk.agent.lastFailed.value !in hook.value.proves
                                  || t.disk.files[t.disk.agent.lastFailed.value].envelope.createdAt > hook.value.at
                                  || t.disk.files[t.disk.agent.lastFailed.value].envelope.outcome !in {Unverified, Accepted})) ::
      LateProof(t.disk, hook) == Proof(id) && ProvedDelivered(t.disk, LateDone(t.disk, at, hook), id)
  {
    forall id <- t.disk.files | t.disk.agent.lastFailed == Some(id) || t.disk.agent.lastAccepted == Some(id)
      ensures t.disk.files[id].envelope.id == id
    {
      FileIsSound(t.disk, t.world, id);
    }
    LateProofMeans(t.disk, hook);
    var late := LateProof(t.disk, hook);
    if late.Proof? {
      ConfirmedEnds(t, at, hook, late.id);
    }
    assert LateDone(t.disk, at, hook) == if late.Proof? then Confirmed(t.disk, at, late.id) else t.disk;
    hide Inv, Confirmed, ProvedDelivered, LateProof, LateDone;
  }

  /** What is proved, read off the record, the receipts and the hook. */
  lemma LateProofMeans(d: Disk, hook: Option<Hook>)
    requires d.agent.input.None?
    requires forall id <- d.files | d.agent.lastFailed == Some(id) || d.agent.lastAccepted == Some(id) :: d.files[id].envelope.id == id
    ensures hook.None? || (forall id | d.agent.lastFailed == Some(id) || d.agent.lastAccepted == Some(id) :: id !in hook.value.proves) ==>
      !LateProof(d, hook).Proof?
    ensures LateProof(d, hook).Proof? ==>
      var id := LateProof(d, hook).id;
      && hook.Some? && (d.agent.lastFailed == Some(id) || d.agent.lastAccepted == Some(id))
      && id in d.files && id in hook.value.proves && d.files[id].envelope.createdAt <= hook.value.at
      && d.files[id].envelope.outcome in {Unverified, Accepted}
    ensures forall id | hook.Some? && d.agent.lastFailed == Some(id) && In(d, id, FailedDir) && id in hook.value.proves
                        && d.files[id].envelope.createdAt <= hook.value.at && d.files[id].envelope.outcome in {Unverified, Accepted} ::
      LateProof(d, hook) == Proof(id)
    ensures forall id | hook.Some? && d.agent.lastAccepted == Some(id) && In(d, id, Cur) && id in hook.value.proves
                        && d.files[id].envelope.createdAt <= hook.value.at && d.files[id].envelope.outcome in {Unverified, Accepted}
                        && (d.agent.lastFailed.Some? ==>
                              && In(d, d.agent.lastFailed.value, FailedDir)
                              && (d.agent.lastFailed.value !in hook.value.proves
                                  || d.files[d.agent.lastFailed.value].envelope.createdAt > hook.value.at
                                  || d.files[d.agent.lastFailed.value].envelope.outcome !in {Unverified, Accepted})) ::
      LateProof(d, hook) == Proof(id)
  {
  }

  lemma ConfirmedEnds(t: Durable, at: Time, hook: Option<Hook>, id: EnvelopeID)
    requires at != 0 && t.disk.agent.cleanup.None? && LateProof(t.disk, hook) == Proof(id)
    ensures id in t.disk.files && ProvedDelivered(t.disk, Confirmed(t.disk, at, id), id)
  {
    ConfirmedMeans(t, at, hook, id);
    FileIsSound(t.disk, t.world, id);
    NotesAreBands(t.disk, t.world);
    var d := Reopened(t.disk, at, id);
    BandsMove(t.disk.agent, d.agent);
    hide Inv, Finished, BandsSound;
    forall x <- Confirmed(t.disk, at, id).files
      ensures x != id ==> x in t.disk.files && Confirmed(t.disk, at, id).files[x] == t.disk.files[x]
    {
      FinishedSpares(d, at, t.disk.files[id].envelope, Delivered, "", x);
    }
  }

  /** The continuation that is awaited is the one that was published, with at most a stamp added. */
  lemma CompletedResumeIff(a: Agent, e: Envelope)
    ensures CompletedResume(a, e) <==>
      && a.compaction.Some? && a.compaction.value.resumeToken.Some? && e == ResumeEnvelope(a, e.createdAt).(stamp := e.stamp)
      && var c := a.compaction.value;
      c.status == Completed && c.completedAt > c.startedAt && c.continuation && !c.resumeAdmitted
  {
  }

  /** The compaction has ended, by the record. */
  predicate Ended(a: Agent) {
    && a.compaction.Some?
    && var c := a.compaction.value;
       c.status == Completed || ((c.status == Submitted || c.status == CompactionUnverified) && c.completedAt > c.startedAt)
  }

  /** The continuation is in order: queued as it was published and not admitted, or entered and gone. */
  predicate InOrder(d: Disk)
    requires d.agent.compaction.Some?
  {
    var a, c := d.agent, d.agent.compaction.value;
    if In(d, ResumeNote(c.id), New) then
      var e := d.files[ResumeNote(c.id)].envelope;
      && c.resumeToken.Some? && e == ResumeEnvelope(a, e.createdAt).(stamp := e.stamp)
      && c.completedAt > c.startedAt && c.continuation && !c.resumeAdmitted
    else c.continuation
  }

  /** Going on with a compaction does something only once it has ended: it is completed then if its
      continuation is in order, and failed otherwise. */
  lemma ContinuedFields(t: State, at: Time)
    requires at != 0
    ensures !Ended(t.disk.agent) ==> Continued(t, at) == t
    ensures Ended(t.disk.agent) ==>
      var a := Continued(t, at).disk.agent;
      && Current(a, t.disk.agent.compaction.value.id)
      && a.compaction.value.status == if InOrder(t.disk) then Completed else CompactionFailed
  {
    var n := t.(disk := t.disk.(agent := Completing(t.disk.agent)));
    if Ended(t.disk.agent) {
      assert Current(n.disk.agent, t.disk.agent.compaction.value.id) && n.disk.agent.compaction.value.status == Completed;
      if Withheld(n.disk) {
        FailureIsSaved(n, at, NOT_ENTERED);
      }
    }
    hide Lost;
  }

  /** The envelope carries what the request asked to resume with, from whom it asked, to this agent. */
  predicate AsAsked(e: Envelope, a: Agent, token: nat, at: Time)
    requires a.compaction.Some?
  {
    var c := a.compaction.value;
    && e.message == c.resume && e.from == c.resumeFrom && e.recipient == a.id && e.to == a.name
    && e.token == (if c.resumeToken.Some? then c.resumeToken.value else token)
    && e.id == ResumeNote(c.id) && e.purpose == Resume && e.createdAt == at && e.notBefore == 0 && e.notAfter == 0
    && !e.sections && !e.pasteOnly && !e.measured && e.stamp.None? && e.outcome == NoOutcome && e.reason == ""
  }

  /** What is published becomes what is awaited once its compaction completed. */
  lemma PublishedIsAwaited(a: Agent, b: Agent, at: Time)
    requires a.compaction.Some? && a.compaction.value.resumeToken.Some? && b.id == a.id && b.name == a.name
    requires b.compaction.Some? && b.compaction.value.status == Completed && b.compaction.value.completedAt > b.compaction.value.startedAt
    requires var c, n := a.compaction.value, b.compaction.value;
             && n.id == c.id && n.resume == c.resume && n.resumeFrom == c.resumeFrom && n.resumeToken == c.resumeToken
             && n.continuation && !n.resumeAdmitted
    ensures CompletedResume(b, ResumeEnvelope(a, at))
  {
    CompletedResumeIff(b, ResumeEnvelope(a, at));
  }

  /** An awaited continuation is reserved: the next turn takes it up, or a startup input before it, and
      going on with the compaction leaves everything as it is. */
  lemma AwaitedIsTaken(t: State, now: Time)
    requires now != 0 && Keyed(t.disk) && t.disk.agent.compaction.Some?
    requires var id := NoteOf(t.disk.agent); In(t.disk, id, New) && CompletedResume(t.disk.agent, t.disk.files[id].envelope)
    ensures Continued(t, now) == t
    ensures var e, next := t.disk.files[NoteOf(t.disk.agent)].envelope, Picked(t.disk, Mail(t.disk), now).next;
            next == Some(e) || (next.Some? && next.value.purpose in {Startup, Assignment, Clear} && Earlier(next.value, e))
  {
    PickIsFirst(t.disk, now);
    var id := NoteOf(t.disk.agent);
    var next := Picked(t.disk, Mail(t.disk), now).next;
    assert Reserved(t.disk.agent, t.disk.files[id].envelope);
    hide Picked, Mail, Due, Expired, Earlier;
    assert next.Some?;
  }

  /** No named receipt is missing. */
  predicate ReceiptsRead(d: Disk) {
    && (d.agent.lastFailed.Some? ==> In(d, d.agent.lastFailed.value, FailedDir))
    && (d.agent.lastAccepted.Some? ==> In(d, d.agent.lastAccepted.value, Cur))
  }

  lemma ReadIsNoError(d: Disk, hook: Option<Hook>)
    requires hook.None? || ReceiptsRead(d)
    ensures !LateProof(d, hook).ReadError?
  {
  }

  /** Filing an input leaves no named receipt missing. */
  lemma SettledReads(d: Disk, e: Envelope, outcome: Outcome, reason: string)
    requires ReceiptsRead(d) && d.agent.cleanup.None? && outcome != NoOutcome
    requires d.agent.lastFailed != Some(e.id) && d.agent.lastAccepted != Some(e.id)
    requires d.agent.lastFailed.Some? ==> d.agent.lastFailed != d.agent.lastAccepted && d.agent.lastFailed != d.agent.lastDelivered
    requires d.agent.lastAccepted.Some? ==> d.agent.lastAccepted != d.agent.lastDelivered
    ensures ReceiptsRead(Settled(d, e, outcome, reason))
  {
  }

  lemma FinishedReads(d: Disk, at: Time, e: Envelope, outcome: Outcome, reason: string)
    requires at != 0 && ReceiptsRead(d) && d.agent.cleanup.None? && outcome != NoOutcome && Holds(d.agent, e.id)
    requires d.agent.lastFailed != Some(e.id) && d.agent.lastAccepted != Some(e.id)
    requires d.agent.lastFailed.Some? ==> d.agent.lastFailed != d.agent.lastAccepted && d.agent.lastFailed != d.agent.lastDelivered
    requires d.agent.lastAccepted.Some? ==> d.agent.lastAccepted != d.agent.lastDelivered
    ensures ReceiptsRead(Finished(d, at, e, outcome, reason))
  {
    SettledReads(d, e, outcome, reason);
    SettledHolds(d, e, outcome, reason);
    var n := Settled(d, e, outcome, reason);
    hide Settled;
    var f := StampSettled(n, e, outcome);
    StampOnlyBands(n, e, outcome);
    if e.stamp.Some? && outcome == Delivered {
      if n.agent.lastFailed.Some? {
        NotesGone(n, n.agent.bands.pending, e.stamp.value, e.id, n.agent.lastFailed.value);
      }
      if n.agent.lastAccepted.Some? {
        NotesGone(n, n.agent.bands.pending, e.stamp.value, e.id, n.agent.lastAccepted.value);
      }
    }
    assert ReceiptsRead(f);
    hide StampSettled, KeptNotes, WithoutNotes;
    InputDoneEnds(f.agent, at, e.id, outcome, reason);
  }

  /** An attempt on an envelope that no receipt names leaves none missing. */
  lemma AttemptReads(t: Durable, at: Time, e: Envelope, fit: nat, v: Verdict)
    requires at != 0 && In(t.disk, e.id, New) && !IsStartup(e) && Result(e, v) != NoOutcome
    requires ReceiptsRead(t.disk) && t.disk.agent.cleanup.None?
    ensures ReceiptsRead(Attempted(t.disk, at, e, fit, v))
  {
    ReceiptsDistinct(t.disk, t.world);
    var held, stamped := AttemptIsFinish(t.disk, at, e, fit, v);
    hide Inv, Attempted, Finished, Result;
    FinishedReads(held, at, stamped, Result(e, v), v.reason);
  }

  /** Nothing is known yet of the compaction's end, and late proof can read the receipts. */
  predicate Unproved(d: Disk, since: Time, late: Option<Hook>) {
    d.agent.compaction.Some? && d.agent.compaction.value.completedAt <= since && (late.Some? ==> ReceiptsRead(d))
  }

  /** What became of the request, by how far its start got: past the submit key it is under way, unless
      its continuation could not be entered or the screen shows that it was refused. */
  predicate StartedAs(status: CompactionStatus, start: Start, unproved: bool) {
    match start
    case NotReady => status == Queued
    case Waits(_) => status == Queued
    case Deferred => status == Queued
    case EnterFailed(_) => status == CompactionUnverified
    case Aborted(_) => status == CompactionFailed
    case Started(entry, _, _, refused) =>
      && status != Queued && (!entry.InQueue? ==> status == CompactionFailed)
      && (entry.InQueue? && unproved ==> status == if refused then CompactionFailed else Submitted)
  }

  /** The late proof this start is given. */
  function LateOf(start: Start): Option<Hook> {
    if start.Started? then start.late else None
  }

  lemma PublishedReads(t: State, at: Time, token: nat)
    requires t.disk.agent.compaction.Some? && ReceiptsRead(t.disk)
    ensures ReceiptsRead(ResumePublished(t, at, token).disk)
  {
  }
}
