/** What the specification's functions write and what its conditions read, field by field: a reader
    need not follow the functions to know which mail is taken up, what a result says, when a request is
    refused, or what a deadline, a recovery and a reset change. */
module DeliveryFields {
  import opened Records
  import opened AgentStep
  import opened DeliveryState
  import opened DeliverySteps
  import opened DeliverySpec
  import opened DeliveryTheorems
  import opened DeliveryDrains
  import opened DeliveryMeaning

  /** Nothing but its result changes in an envelope that is filed. */
  ghost predicate SameText(e: Envelope, f: Envelope) {
    && e.id == f.id && e.token == f.token && e.recipient == f.recipient && e.to == f.to && e.from == f.from
    && e.message == f.message && e.purpose == f.purpose && e.createdAt == f.createdAt
    && e.notBefore == f.notBefore && e.notAfter == f.notAfter && e.sections == f.sections && e.measured == f.measured
  }

  predicate StartupPurpose(e: Envelope) {
    e.purpose == Startup || e.purpose == Assignment || e.purpose == Clear
  }

  /** A filed result lies in `cur` exactly if it was accepted or delivered, says so with its reason, and
      keeps its text. */
  lemma FiledFields(d: Disk, e: Envelope, outcome: Outcome, reason: string)
    ensures var f := FiledAs(d, e, outcome, reason).files[e.id];
            && (f.dir == Cur <==> outcome == Accepted || outcome == Delivered) && f.dir != New
            && f.envelope.outcome == outcome && f.envelope.reason == reason && SameText(e, f.envelope)
            && f.envelope.stamp == e.stamp && f.envelope.pasteOnly == e.pasteOnly
  {
  }

  /** A result is remembered as the latest of its kind, delivered, accepted or neither, and as nothing
      else; the file of the receipt it replaces is removed, and no other receipt is forgotten. */
  lemma SettledFields(d: Disk, e: Envelope, outcome: Outcome, reason: string)
    requires d.agent.cleanup.None? && outcome != NoOutcome
    ensures var a, n := d.agent, Settled(d, e, outcome, reason);
            && n.agent.lastDelivered == (if outcome == Delivered then Some(e.id)
                                         else if a.lastDelivered == Some(e.id) then None else a.lastDelivered)
            && n.agent.lastAccepted == (if outcome == Accepted then Some(e.id)
                                        else if a.lastAccepted == Some(e.id) then None else a.lastAccepted)
            && n.agent.lastFailed == (if outcome != Delivered && outcome != Accepted then Some(e.id)
                                      else if a.lastFailed == Some(e.id) then None else a.lastFailed)
            && n.agent.cleanup.None? && n.agent.input == a.input && n.agent.compaction == a.compaction
            && forall k :: k in n.files <==>
                 || k == e.id
                 || (&& k in d.files
                     && !(outcome == Delivered && a.lastDelivered == Some(k) && d.files[k].dir == Cur)
                     && !(outcome == Accepted && a.lastAccepted == Some(k) && d.files[k].dir == Cur)
                     && !(outcome != Delivered && outcome != Accepted && a.lastFailed == Some(k) && d.files[k].dir == FailedDir))
  {
  }

  /** What a finished input shows of the agent: busy once it was delivered or accepted, unknown when it is
      unverified, and as before when it failed; only a delivered one counts as submitted. */
  lemma InputDoneFields(a: Agent, at: Time, id: EnvelopeID, outcome: Outcome, reason: string)
    requires at != 0 && Holds(a, id)
    ensures var b := InputDone(a, at, id, outcome, reason);
            && b.input.None? && b.status == a.status
            && b.activity == (if outcome == Delivered || outcome == Accepted then Busy
                              else if outcome == Unverified then Unknown else a.activity)
            && b.submittedAt == (if outcome == Delivered then at else a.submittedAt)
  {
  }

  /** The first attempt stamps the oldest pending crossings that fit; a stamp once given stays. */
  lemma StampFields(e: Envelope, notes: seq<Envelope>, fit: nat)
    ensures var f := Stamp(e, notes, fit);
            && SameText(e, f) && f.pasteOnly == e.pasteOnly && f.outcome == e.outcome && f.reason == e.reason && f.stamp.Some?
            && (e.stamp.Some? ==> f == e)
            && (e.stamp.None? ==> forall id :: id in f.stamp.value <==> exists i | 0 <= i < fit && i < |notes| :: notes[i].id == id)
  {
  }

  /** An attempt files the envelope as it was pasted, under its saved intent. */
  lemma AttemptFinishes(d: Disk, at: Time, e: Envelope, fit: nat, v: Verdict) returns (held: Disk, wire: Envelope)
    requires at != 0 && In(d, e.id, New)
    ensures Attempted(d, at, e, fit, v) == Finished(held, at, wire, Result(e, v), v.reason)
    ensures SameText(e, wire) && wire.pasteOnly == (e.pasteOnly || (StartupPurpose(e) && !v.Hazard?))
    ensures held.files == d.files[e.id := File(New, wire)] && Holds(held.agent, e.id)
    ensures held.agent == d.agent.(input := held.agent.input, changedAt := held.agent.changedAt)
  {
    hide Finished, IDs;
    var stamped := Stamp(e, d.agent.bands.pending, fit);
    assert SameText(e, stamped) && stamped.pasteOnly == e.pasteOnly;
    var intended := Put(d, stamped).(agent := InputBegun(d.agent, at, EnvelopeInput(e.id)));
    wire := Pasted(stamped, v);
    held := Put(intended, wire);
    assert Result(stamped, v) == Result(e, v);
    hide Result, Stamp;
    assert Attempted(d, at, e, fit, v) == TypedOnce(intended, at, stamped, v);
  }

  /** What one attempt leaves of its envelope: a hazard or a withdrawn paste failed it, a paste that was
      left staged is unverified, a submitted one has the result that was seen; a startup input whose
      paste began is marked. */
  lemma AttemptFields(d: Disk, at: Time, e: Envelope, fit: nat, v: Verdict)
    requires at != 0 && In(d, e.id, New) && d.files[e.id].envelope == e && Result(e, v) != NoOutcome
    requires d.agent.cleanup.None? && BandsSound(d.agent)
    ensures var n := Attempted(d, at, e, fit, v);
            && e.id in n.files
            && var f := n.files[e.id];
            && SameText(e, f.envelope) && f.envelope.reason == v.reason
            && (v.Hazard? ==> f.envelope.outcome == Failed)
            && (v.Sent? ==> f.envelope.outcome == v.outcome)
            && (v.NotSubmitted? && (!v.cleared || e.from.kind == GanglineSender || StartupPurpose(e) || e.purpose == Resume) ==>
                  f.envelope.outcome == Unverified)
            && (v.NotSubmitted? && v.cleared && e.from.kind != GanglineSender && e.purpose == Ordinary && !e.id.ResumeNote? ==>
                  f.envelope.outcome == Failed)
            && (f.dir == Cur <==> f.envelope.outcome == Accepted || f.envelope.outcome == Delivered) && f.dir != New
            && f.envelope.pasteOnly == (e.pasteOnly || (StartupPurpose(e) && !v.Hazard?))
  {
    var held, wire := AttemptFinishes(d, at, e, fit, v);
    BandsMove(d.agent, held.agent);
    hide Finished, BandsSound, Attempted;
    FinishedSpares(held, at, wire, Result(e, v), v.reason, e.id);
  }

  /** Which mail a turn takes up, by its own dates: a startup input or the awaited continuation first, and
      otherwise the oldest that is due and has not expired; nothing when there is none of either. */
  lemma PickFields(d: Disk, at: Time)
    requires Keyed(d)
    ensures var next := Picked(d, Mail(d), at).next;
            match next
            case None => forall k | In(d, k, New) ::
              var f := d.files[k].envelope;
              !StartupPurpose(f) && !CompletedResume(d.agent, f) && (f.notBefore > at || !Keeps(f, at))
            case Some(e) =>
              && In(d, e.id, New) && d.files[e.id].envelope == e
              && (StartupPurpose(e) || CompletedResume(d.agent, e) || (e.notBefore <= at && Keeps(e, at)))
              && forall k | In(d, k, New) ::
                   var f := d.files[k].envelope;
                   && (StartupPurpose(f) || CompletedResume(d.agent, f) ==>
                         (StartupPurpose(e) || CompletedResume(d.agent, e)) && e.createdAt <= f.createdAt)
                   && (f.notBefore <= at && Keeps(f, at) ==>
                         StartupPurpose(e) || CompletedResume(d.agent, e) || e.createdAt <= f.createdAt)
  {
    PickIsFirst(d, at);
    hide Picked, Mail, CompletedResume, Keyed;
  }

  /** What is withdrawn while mail is taken up: only expired mail, and all of it that is older than what
      is taken up, unless that is reserved. */
  lemma SweepFields(d: Disk, at: Time, k: EnvelopeID)
    requires Keyed(d)
    ensures var p := Picked(d, Mail(d), at);
            && p.disk.agent == d.agent && (k in p.disk.files ==> k in d.files && p.disk.files[k] == d.files[k])
            && (k in d.files && k !in p.disk.files ==> In(d, k, New) && !Keeps(d.files[k].envelope, at))
            && (In(d, k, New) && !Keeps(d.files[k].envelope, at) ==>
                  && (p.next.None? ==> k !in p.disk.files)
                  && (p.next.Some? && !StartupPurpose(p.next.value) && !CompletedResume(d.agent, p.next.value) ==>
                        Earlier(d.files[k].envelope, p.next.value) ==> k !in p.disk.files))
  {
    SweptAway(d, at, k);
    if k in d.files && (d.files[k].dir != New || Keeps(d.files[k].envelope, at)) {
      PickKeeps(d, at, k);
    }
    KeyedMail(d);
    var pending := Mail(d);
    ListedOnes(d, pending);
    hide CompletedResume;
    if In(d, k, New) && !Keeps(d.files[k].envelope, at) && ReservedIn(d.agent, pending) == |pending| {
      assert d.files[k].envelope in pending;
      var i :| 0 <= i < |pending| && pending[i] == d.files[k].envelope;
      var n := DueIn(pending, at);
      hide Mail;
      if i < n {
        SweepTakes(d, pending, n, at, i);
      } else if n < |pending| && i != n {
        assert Earlier(pending[n], pending[i]);
      }
    }
  }

  lemma {:induction false} SweepTakes(d: Disk, pending: seq<Envelope>, n: nat, at: Time, i: nat)
    requires i < n <= |pending| && !Keeps(pending[i], at) && In(d, pending[i].id, New)
    ensures pending[i].id !in WithoutExpired(d, pending, n, at).files
  {
    if i < n - 1 {
      SweepTakes(d, pending, n - 1, at, i);
    } else {
      SweptOnly(d, pending, n - 1, at, pending[i].id);
    }
  }

  /** A context reset takes exactly the queued band notices away, and the stamp of queued mail that
      carries one and was not pasted. */
  lemma ResetFields(d: Disk, id: EnvelopeID)
    requires id in d.files
    ensures var n, e := ResetFiles(d), d.files[id].envelope;
            && n.agent == d.agent && n.files.Keys <= d.files.Keys
            && (id !in n.files <==> d.files[id].dir == New && e.from == Sender(GanglineSender, "context-band"))
            && (id in n.files ==>
                  && n.files[id].dir == d.files[id].dir
                  && n.files[id].envelope == if d.files[id].dir == New && e.stamp.Some? && e.stamp.value != {} && !e.pasteOnly
                                             then e.(stamp := None) else e)
  {
  }

  /** Which deadlines have passed, and what that changes: a boot fails, an interrupt is wedged, a submitted
      compaction is unverified; nothing else changes but the times and words that go with it. */
  lemma DeadlineFields(a: Agent, at: Time)
    requires at != 0 && a.status != Dropping
    ensures var b := DeadlinesDone(a, at);
            && b.status == (if (a.status == Starting || a.status == Booting) && a.bootDeadline != 0 && at >= a.bootDeadline
                            then AgentFailed else a.status)
            && (a.compaction.None? ==> b.compaction.None?)
            && (a.compaction.Some? ==>
                  var c := a.compaction.value;
                  b.compaction == Some(if c.status == Submitted && at >= c.deadline
                                       then c.(status := CompactionUnverified, reason := UNCONFIRMED) else c))
            && (!(a.compaction.Some? && a.compaction.value.status == Submitted && at >= a.compaction.value.deadline) ==>
                  b.input == a.input
                  && b.activity == (if a.activity == Interrupting && a.interruptDeadline != 0 && at >= a.interruptDeadline
                                    then Wedged else a.activity))
  {
    var b := if Overdue(a, at) then Applied(a, at, CompactionUnconfirmed(a.compaction.value.id, UNCONFIRMED, false)) else a;
    assert Overdue(a, at) ==> b.status == a.status && b.bootDeadline == a.bootDeadline && b.activity == Unknown;
    assert Overdue(a, at) ==> b.compaction == Some(a.compaction.value.(status := CompactionUnverified, reason := UNCONFIRMED));
    Checked(b, at);
    hide Applied, Step;
    assert Applied(b, at, DeadlineChecked) == CheckDeadlines(b, at).(changedAt := at) by {
      AppliedIs(b, at);
    }
  }

  lemma AppliedIs(a: Agent, at: Time)
    requires at != 0 && a.status != Dropping
    ensures Applied(a, at, DeadlineChecked) == CheckDeadlines(a, at).(changedAt := at)
  {
    Checked(a, at);
    hide Step, CheckDeadlines;
  }

  /** A fresh request is queued with what was asked for and half a minute to run. */
  lemma RequestFields(id: nat, at: Time, resume: string, from: Sender)
    ensures var c := NewCompaction(id, at, resume, from);
            && c.id == id && c.resume == resume && c.resumeFrom == from && c.startedAt == at && c.deadline == at + 30000
            && c.status == Queued && !c.continuation && c.resumeToken.None? && !c.resumeAdmitted && c.completedAt == 0
            && c.reason == "" && !c.recovered
  {
  }

  /** When a request is accepted, by the status of the earlier compaction. */
  lemma AcceptedFields(d: Disk, at: Time, running: bool)
    ensures !RequestRefused(d, at, running) <==>
      && d.agent.status == Active && !StartupRetained(d)
      && (d.agent.compaction.None? ||
          var c := d.agent.compaction.value;
          match c.status
          case Queued => false
          case Submitted => false
          case Completed =>
            && c.continuation && (c.resumeAdmitted || at >= c.completedAt + 30000)
            && !(In(d, ResumeNote(c.id), New) && CompletedResume(d.agent, d.files[ResumeNote(c.id)].envelope))
          case CompactionUnverified => !c.continuation || c.resumeAdmitted || c.recovered || !running
          case CompactionFailed => true)
  {
  }

  /** What an operator may stop, and what becomes of it. */
  lemma InterruptFields(a: Agent, at: Time, busy: bool, reason: string)
    requires at != 0 && a.input.None?
    ensures Interruptible(a, busy) <==>
      && a.compaction.Some?
      && var c := a.compaction.value;
         match c.status
         case Queued => true
         case Submitted => c.continuation && !c.resumeAdmitted && !c.recovered && a.status == Active && busy
         case CompactionUnverified => c.continuation && !c.resumeAdmitted && !c.recovered && a.status == Active && busy
         case Completed => false
         case CompactionFailed => false
    ensures Interruptible(a, busy) ==>
      var b, c := Interrupted(a, at, reason), a.compaction.value;
      && b.input.None? && b.status == a.status
      && b.compaction == if c.status == Queued then None
                         else Some(c.(status := CompactionUnverified, reason := reason, recovered := true))
  {
  }

  /** A token is given once. */
  lemma TokenFields(a: Agent, token: nat)
    requires a.compaction.Some?
    ensures var c := a.compaction.value;
            Tokened(a, token) == a.(compaction := Some(c.(resumeToken := if c.resumeToken.Some? then c.resumeToken else Some(token))))
  {
  }

  /** What a start writes before its keys: why it waits, or when it began and how long it has. */
  lemma BeginFields(a: Agent, at: Time, reason: string)
    requires at != 0 && a.compaction.Some? && a.compaction.value.status == Queued
    ensures WaitNoted(a, at, reason).compaction == Some(a.compaction.value.(reason := reason))
    ensures var b, c := Begun(a, at), a.compaction.value;
            && b.input == Some(CompactionInput(c.id))
            && b.compaction == Some(c.(startedAt := at, deadline := at + 30000))
  {
  }

  /** A start that could not press its submit key for sure is unverified with its reason; one whose draft
      was withdrawn waits again; neither touches a file. */
  lemma CarriedFields(t: State, at: Time, token: nat, start: Start)
    requires at != 0 && t.disk.agent.compaction.Some? && t.disk.agent.compaction.value.status == Queued
    requires t.disk.agent.input == Some(CompactionInput(t.disk.agent.compaction.value.id))
    ensures start.EnterFailed? || start.Deferred? ==>
      var n, c := CarriedOut(t, at, token, start), t.disk.agent.compaction.value;
      && n.ok && n.state.world == t.world && n.state.disk.files == t.disk.files && n.state.disk.agent.input.None?
      && n.state.disk.agent.compaction ==
         Some(if start.EnterFailed? then c.(status := CompactionUnverified, reason := start.reason)
              else c.(reason := "staged command withdrawn; waiting for native idle"))
      && n.state.disk.agent.activity == (if start.EnterFailed? then Unknown else t.disk.agent.activity)
  {
    hide StartEntered, LostDone;
  }

  /** What an owner makes of the intent of a process that is gone, apart from an envelope: a compaction is
      unverified, one that was being recovered counts as recovered, an interrupt's effect is unknown. */
  lemma RecoveryFields(d: Disk, at: Time)
    requires at != 0 && d.agent.input.Some? && !d.agent.input.value.EnvelopeInput? && Recoverable(d)
    ensures var n, i := InputRecovered(d, at), d.agent.input.value;
            && n.files == d.files && n.agent.input.None? && n.agent.activity == Unknown && SameReceipts(n.agent, d.agent)
            && (i.InterruptInput? ==> n.agent.compaction == d.agent.compaction && n.agent.evidence == OWNER_EXITED)
            && (i.CompactionInput? ==>
                  n.agent.compaction == Some(d.agent.compaction.value.(status := CompactionUnverified, reason := OWNER_EXITED)))
            && (i.RecoveryInput? ==>
                  n.agent.compaction == Some(d.agent.compaction.value.(status := CompactionUnverified, reason := RECOVERY_EXITED, recovered := true)))
  {
  }

  /** And of an envelope: it is filed as accepted or unverified with its text, and a reason that says its
      owner is gone unless it was accepted before. */
  lemma RecoveredFields(d: Disk, at: Time, id: EnvelopeID)
    requires at != 0 && id in d.files && d.files[id].envelope.id == id && d.agent.cleanup.None? && BandsSound(d.agent)
    ensures var n, e := Recovered(d, at, id), d.files[id].envelope;
            && id in n.files && SameText(e, n.files[id].envelope)
            && n.files[id].envelope.outcome == (if e.outcome == Accepted then Accepted else Unverified)
            && n.files[id].envelope.reason == (if e.outcome == Accepted then e.reason else OWNER_EXITED)
  {
    var e := d.files[id].envelope;
    hide Finished, BandsSound;
    FinishedSpares(Move(d, id, New), at, e, if e.outcome == Accepted then Accepted else Unverified,
                   if e.outcome == Accepted then e.reason else OWNER_EXITED, id);
  }

  /** What a failed compaction leaves in writing: the reason in the record, and a notice to the agent. */
  lemma FailureFields(d: Disk, at: Time, reason: string)
    requires at != 0 && d.agent.compaction.Some?
    ensures var a, c := FailureOf(d, at, reason), d.agent.compaction.value;
            && a.compaction == Some(c.(status := CompactionFailed, reason := reason))
            && a.input.None? && a.activity == Unknown && a.evidence == reason
    ensures var e, c := FailureEnvelope(FailureOf(d, at, reason), at, reason), d.agent.compaction.value;
            && e.id == FailureNote(c.id) && e.recipient == d.agent.id && e.to == d.agent.name
            && e.from == Sender(GanglineSender, "compact") && e.purpose == Ordinary && e.createdAt == at
            && |e.message| >= |reason| && e.message[|e.message| - |reason|..] == reason
            && e.notBefore == 0 && e.notAfter == 0 && e.outcome == NoOutcome && e.stamp.None?
  {
    var e := FailureEnvelope(FailureOf(d, at, reason), at, reason);
    assert e.message == "Compaction failed: " + reason;
  }

  /** A cancelled continuation says why, and keeps its text. */
  lemma CancelledFields(d: Disk, c: nat, reason: string)
    requires var id := ResumeNote(c); id in d.files && d.files[id].envelope.id == id && d.agent.cleanup.None?
    ensures var n, id := ResumeCancelled(d, c, reason), ResumeNote(c);
            && id in n.files && n.files[id].dir == FailedDir && n.files[id].envelope.outcome == Cancelled
            && n.files[id].envelope.reason == reason && SameText(d.files[id].envelope, n.files[id].envelope)
  {
    var id := ResumeNote(c);
    var e := d.files[id].envelope;
    var m := if d.files[id].dir == New then d else Move(d, id, New).(agent := Forget(d.agent, id));
    FiledFields(m, e, Cancelled, reason);
    SettledSpares(m, e, Cancelled, reason, id);
    hide Settled, FiledAs;
  }

  /** A crossing's note goes to the agent itself, under the next number. */
  lemma BandFields(a: Agent, at: Time, message: string)
    ensures var e := BandEnvelope(a, at, message);
            && e.id == BandNote(a.bands.sequence + 1) && e.recipient == a.id && e.to == a.name && e.message == message
            && e.from == Sender(GanglineSender, "context-band") && e.purpose == Ordinary && e.createdAt == at
            && e.notBefore == 0 && e.notAfter == 0 && e.outcome == NoOutcome && e.stamp.None?
  {
  }

  /** What a new owner, or a drain, leaves of a compaction: none is overdue, and one whose end is known is
      completed with its continuation in order, or failed. */
  ghost predicate Looked(d: Disk, at: Time) {
    && !(d.agent.compaction.Some? && d.agent.compaction.value.status == Submitted && at >= d.agent.compaction.value.deadline)
    && (Ended(d.agent) ==> d.agent.compaction.value.status == Completed && InOrder(d))
  }

  lemma ContinuedLooks(t: State, at: Time)
    requires at != 0
    ensures var n := Continued(t, at).disk; Ended(n.agent) ==> n.agent.compaction.value.status == Completed && InOrder(n)
    ensures var n := Continued(t, at).disk.agent;
            n.compaction.Some? && n.compaction.value.status == Submitted ==> n == t.disk.agent
  {
    ContinuedFields(t, at);
    if Ended(t.disk.agent) && InOrder(t.disk) {
      CompletesInOrder(t, at);
    }
    hide Continued, InOrder;
  }

  lemma CompletesInOrder(t: State, at: Time)
    requires at != 0 && Ended(t.disk.agent) && InOrder(t.disk)
    ensures Continued(t, at) == t.(disk := t.disk.(agent := Completing(t.disk.agent))) && InOrder(Continued(t, at).disk)
  {
    hide Lost;
  }

  lemma DeadlinesLook(t: State, at: Time)
    requires at != 0 && t.disk.agent.status != Dropping
    requires Ended(t.disk.agent) ==> t.disk.agent.compaction.value.status == Completed && InOrder(t.disk)
    ensures Looked(t.disk.(agent := DeadlinesDone(t.disk.agent, at)), at)
  {
    DeadlineFields(t.disk.agent, at);
    DeadlinesSpare(t.disk.agent, at);
    DeadlinesKeepName(t.disk.agent, at);
    hide DeadlinesDone;
  }

  lemma DeadlinesKeepName(a: Agent, at: Time)
    requires at != 0
    ensures DeadlinesDone(a, at).id == a.id && DeadlinesDone(a, at).name == a.name
    ensures DeadlinesDone(a, at).confirmedCompactedAt == a.confirmedCompactedAt && DeadlinesDone(a, at).bands == a.bands
  {
    var b := if Overdue(a, at) then Applied(a, at, CompactionUnconfirmed(a.compaction.value.id, UNCONFIRMED, false)) else a;
    assert b.id == a.id && b.name == a.name && b.confirmedCompactedAt == a.confirmedCompactedAt && b.bands == a.bands;
    CheckKeepsName(b, at);
    hide Applied;
  }

  lemma CheckKeepsName(a: Agent, at: Time)
    ensures var b := Applied(a, at, DeadlineChecked);
            b.id == a.id && b.name == a.name && b.confirmedCompactedAt == a.confirmedCompactedAt && b.bands == a.bands
  {
  }

  lemma {:induction false} NotesPresent(t: State, now: Time, notes: seq<Envelope>)
    ensures var n := NotesQueued(t, now, notes);
            && n.disk.agent == t.disk.agent && t.disk.files.Keys <= n.disk.files.Keys
            && forall note <- notes :: now - note.createdAt >= 5000 ==> note.id in n.disk.files
  {
    if notes != [] {
      assert notes == notes[..|notes| - 1] + [notes[|notes| - 1]];
      NotesPresent(t, now, notes[..|notes| - 1]);
    }
  }

  /** Every pending crossing that waited for five seconds has a file. */
  ghost predicate NotesOut(d: Disk, now: Time) {
    forall note <- d.agent.bands.pending :: now - note.createdAt >= 5000 ==> note.id in d.files
  }

  lemma NotesGoOut(t: State, now: Time)
    ensures NotesOut(NotesSettled(t, now).disk, now) && !NotesSettled(t, now).disk.agent.bands.discardQueued
    ensures NotesSettled(t, now).disk.agent.confirmedCompactedAt == t.disk.agent.confirmedCompactedAt
  {
    var reset := t.(disk := ResetFiles(t.disk).(agent := t.disk.agent.(bands := t.disk.agent.bands.(discardQueued := false))));
    NotesPresent(reset, now, t.disk.agent.bands.pending);
    NotesPresent(t, now, t.disk.agent.bands.pending);
    hide ResetFiles;
  }

  /** Going on with a compaction takes no file away. */
  lemma ContinuedKeepsFiles(t: State, at: Time)
    requires at != 0 && NoteLabelled(t.disk) && t.disk.agent.cleanup.None?
    ensures t.disk.files.Keys <= Continued(t, at).disk.files.Keys
  {
    var n := t.(disk := t.disk.(agent := Completing(t.disk.agent)));
    if Withheld(n.disk) {
      LossKeepsFiles(n, at, NOT_ENTERED);
    }
    hide Lost;
  }

  lemma LossKeepsFiles(t: State, at: Time, reason: string)
    requires at != 0 && t.disk.agent.compaction.Some? && NoteLabelled(t.disk) && t.disk.agent.cleanup.None?
    ensures t.disk.files.Keys <= Lost(t, at, reason).disk.files.Keys
  {
    var f := t.disk.(agent := FailureOf(t.disk, at, reason));
    assert f.agent.cleanup.None?;
    hide FailureOf;
    CancelKeepsFiles(f, t.disk.agent.compaction.value.id, reason);
    hide ResumeCancelled;
  }

  lemma CancelKeepsFiles(d: Disk, c: nat, reason: string)
    requires d.agent.cleanup.None? && (ResumeNote(c) in d.files ==> d.files[ResumeNote(c)].envelope.id == ResumeNote(c))
    ensures d.files.Keys <= ResumeCancelled(d, c, reason).files.Keys
  {
  }

  /** A proved end leaves the record of a compaction alone that was submitted after it. */
  lemma LaterIsUnproved(a: Agent, at: Time)
    requires a.compaction.Some? && at <= a.compaction.value.startedAt
    ensures EndNoted(a, at).compaction == a.compaction
  {
  }

  lemma ContinuedLeaves(t: Durable, at: Time)
    requires at != 0 && t.disk.agent.cleanup.None? && NotesOut(t.disk, at)
    ensures var n := Continued(t, at).disk;
            && NotesOut(n, at) && n.agent.bands == t.disk.agent.bands
            && n.agent.confirmedCompactedAt == t.disk.agent.confirmedCompactedAt
            && (Ended(n.agent) ==> n.agent.compaction.value.status == Completed && InOrder(n))
  {
    if t.disk.agent.compaction.Some? && NoteOf(t.disk.agent) in t.disk.files {
      FileIsSound(t.disk, t.world, NoteOf(t.disk.agent));
    }
    hide Inv;
    ContinuedKeeps(t, at);
    ContinuedKeepsFiles(t, at);
    ContinuedLooks(t, at);
    hide Continued, Ended, InOrder;
  }

  /** A witnessed end is remembered, or a newer one was before. */
  lemma WitnessStays(t: Durable, at: Time, ended: Option<Time>)
    requires at != 0
    ensures ended.Some? ==> Witnessed(t, at, ended).disk.agent.confirmedCompactedAt >= ended.value
  {
    if ended.Some? {
      WitnessedMeans(t, at, ended.value);
    }
    hide Inv, Witnessed;
  }

  /** An attempt is filed under the receipt that its result stands for, and says when it was made. */
  lemma AttemptIsNamed(t: Durable, at: Time, e: Envelope, fit: nat, v: Verdict)
    requires at != 0 && In(t.disk, e.id, New) && t.disk.files[e.id].envelope == e && Result(e, v) != NoOutcome
    requires t.disk.agent.cleanup.None? && t.disk.agent.input.None?
    ensures var n := Attempted(t.disk, at, e, fit, v);
            && e.id in n.files && n.files[e.id] == File(DirectoryOf(Result(e, v)), n.files[e.id].envelope)
            && n.files[e.id].envelope.outcome == Result(e, v) && n.files[e.id].envelope.createdAt == e.createdAt
            && n.agent.input.None?
            && (Result(e, v) == Unverified ==> n.agent.lastFailed == Some(e.id))
  {
    NotesAreBands(t.disk, t.world);
    var held, wire := AttemptFinishes(t.disk, at, e, fit, v);
    BandsMove(t.disk.agent, held.agent);
    hide Inv, BandsSound, Finished, Attempted, Result;
    FinishedSpares(held, at, wire, Result(e, v), v.reason, e.id);
    FinishedRecord(held, at, wire, Result(e, v), v.reason);
    if Result(e, v) == Unverified {
      UnverifiedNamed(held, at, wire, v.reason);
    }
  }

  lemma UnverifiedNamed(d: Disk, at: Time, e: Envelope, reason: string)
    requires at != 0 && Holds(d.agent, e.id) && d.agent.cleanup.None?
    ensures Finished(d, at, e, Unverified, reason).agent.lastFailed == Some(e.id)
    ensures Finished(d, at, e, Unverified, reason).agent.lastDelivered != Some(e.id)
  {
    var n := Settled(d, e, Unverified, reason);
    assert n.agent.lastFailed == Some(e.id) && n.agent.lastDelivered != Some(e.id) && n.agent.input == d.agent.input;
    hide Settled;
    InputDoneEnds(n.agent, at, e.id, Unverified, reason);
  }

  lemma UnverifiedIsUndelivered(d: Disk, at: Time, e: Envelope, fit: nat, v: Verdict)
    requires at != 0 && In(d, e.id, New) && d.agent.cleanup.None? && Result(e, v) == Unverified
    ensures Attempted(d, at, e, fit, v).agent.lastDelivered != Some(e.id)
  {
    var held, wire := AttemptFinishes(d, at, e, fit, v);
    hide Finished, Attempted, Result;
    UnverifiedNamed(held, at, wire, v.reason);
  }

  /** What is taken up is still queued once the expired mail before it is withdrawn. */
  lemma PickStays(d: Disk, w: World, at: Time)
    requires Inv(d, w)
    ensures var p := Picked(d, Mail(d), at);
            && p.disk.agent == d.agent
            && (p.next.Some? ==> In(p.disk, p.next.value.id, New) && p.disk.files[p.next.value.id].envelope == p.next.value)
  {
    MailIsListing(d, w);
    var pending := Mail(d);
    ListedOnes(d, pending);
    SweepSpares(d, w, pending, DueIn(pending, at), at);
    hide Inv, Mail, Keyed;
  }

  /** One turn of a drain, whatever it takes up: nothing happens when there is nothing to take up, the
      composer is taken, a failed startup is retained, or the envelope is a continuation that is not the
      awaited one. Otherwise the envelope is attempted, and the drain ends with that exactly when its
      paste was withdrawn, or it is a continuation that stays unverified. No late proof is looked at
      when the attempt is not unverified. */
  lemma TurnFields(t: Durable, at: Time, turns: seq<Turn>)
    requires at != 0 && t.disk.agent.input.None? && t.disk.agent.cleanup.None? && turns != []
    requires turns[0].late.None? || turns[0].verdict.Hazard? || (turns[0].verdict.Sent? && turns[0].verdict.outcome != Unverified)
    requires turns[0].verdict.Sent? ==> turns[0].verdict.outcome in {Delivered, Accepted, Unverified}
    ensures var p, turn, v := Picked(t.disk, Mail(t.disk), at), turns[0], turns[0].verdict;
            if p.next.None? || !turn.free || StartupRetained(t.disk)
               || (p.next.value.purpose == Resume && !CompletedResume(t.disk.agent, p.next.value))
            then Drained(t, at, turns) == Done(State(p.disk, t.world), true)
            else
              && In(p.disk, p.next.value.id, New)
              && var e := p.next.value;
                 var n := State(Attempted(p.disk, at, e, turn.fit, v), if v.Sent? then Pressed(t.world, e.id) else t.world);
                 Drained(t, at, turns) ==
                   if || (v.NotSubmitted? && v.cleared && e.from.kind != GanglineSender && e.purpose == Ordinary)
                      || (e.purpose == Resume && (v.NotSubmitted? || (v.Sent? && v.outcome == Unverified)))
                   then Done(n, true) else Drained(n, at, turns[1..])
  {
    PickStays(t.disk, t.world, at);
    SweepKeepsStartup(t.disk, at);
    var p, turn, v := Picked(t.disk, Mail(t.disk), at), turns[0], turns[0].verdict;
    assert t.(disk := p.disk) == State(p.disk, t.world);
    DrainUnfolds(t, at, turns);
    PickedIsLabelled(t, at);
    hide Inv, Picked, Mail, Attempted, Drained, CompletedResume, StartupRetained, FailedStartup, IsResume, EndsDrain, DeliveryDone;
    if p.next.Some? {
      DeliveryUnproved(State(p.disk, t.world), at, p.next.value, turn.fit, v, turn.late);
    }
  }

  /** One attempt that gets no late proof, and whether the drain ends with it. */
  lemma DeliveryUnproved(t: State, at: Time, e: Envelope, fit: nat, v: Verdict, late: Option<Hook>)
    requires at != 0 && In(t.disk, e.id, New) && t.disk.agent.cleanup.None? && (IsResume(e) <==> e.purpose == Resume)
    requires v.Sent? ==> v.outcome in {Delivered, Accepted, Unverified}
    requires late.None? || v.Hazard? || (v.Sent? && v.outcome != Unverified)
    ensures var n := State(Attempted(t.disk, at, e, fit, v), if v.Sent? then Pressed(t.world, e.id) else t.world);
            && DeliveryDone(t, at, e, fit, v, late) == Done(n, true)
            && (EndsDrain(n.disk.agent, e, v) <==>
                  || (v.NotSubmitted? && v.cleared && e.from.kind != GanglineSender && e.purpose == Ordinary)
                  || (e.purpose == Resume && (v.NotSubmitted? || (v.Sent? && v.outcome == Unverified))))
  {
    if Result(e, v) == Unverified {
      UnverifiedIsUndelivered(t.disk, at, e, fit, v);
    }
    assert Withdrawable(e) <==> e.from.kind != GanglineSender && e.purpose == Ordinary;
    hide Attempted, IsResume, Withdrawable;
  }

  /** What is taken up carries the purpose that its identity stands for. */
  lemma PickedIsLabelled(t: Durable, at: Time)
    ensures var next := Picked(t.disk, Mail(t.disk), at).next;
            next.Some? ==> (IsResume(next.value) <==> next.value.purpose == Resume)
  {
    MailIsListing(t.disk, t.world);
    PickIsFirst(t.disk, at);
    var next := Picked(t.disk, Mail(t.disk), at).next;
    if next.Some? {
      FileIsSound(t.disk, t.world, next.value.id);
    }
    hide Inv, Picked, Mail;
  }

  lemma NotesOutMoves(d: Disk, n: Disk, at: Time)
    requires NotesOut(d, at) && n.files == d.files && n.agent.bands == d.agent.bands
    ensures NotesOut(n, at)
  {
  }

  lemma StaysDropping(a: Agent, at: Time)
    requires at != 0
    ensures a.status == Dropping ==> DeadlinesDone(a, at).status == Dropping
  {
    DeadlinesSpare(a, at);
    assert a.status == Dropping ==> Applied(a, at, DeadlineChecked) == a;
  }
}
