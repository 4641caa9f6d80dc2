/** What a drain comes to, in the fields of its turns and of the mail it finds: when it types nothing,
    when it goes on, and when it has delivered a whole queue. */
module DeliveryDrains {
  import opened Records
  import opened AgentStep
  import opened DeliveryState
  import opened DeliverySteps
  import opened DeliverySpec
  import opened DeliveryTheorems
  import opened Sets

  /** The envelope has not expired. */
  predicate Keeps(e: Envelope, at: Time) {
    e.notAfter == 0 || at < e.notAfter
  }

  function QueuedIDs(d: Disk): set<EnvelopeID> {
    set id | id in d.files && d.files[id].dir == New
  }

  /** The latest failure is a startup input. */
  predicate StartupRetained(d: Disk) {
    && d.agent.lastFailed.Some? && In(d, d.agent.lastFailed.value, FailedDir)
    && d.files[d.agent.lastFailed.value].envelope.purpose in {Startup, Assignment, Clear}
  }

  /** Every queued envelope is an ordinary one that is due. */
  ghost predicate PlainMail(d: Disk, at: Time) {
    forall k | In(d, k, New) ::
      var e := d.files[k].envelope;
      && e.id == k && !k.ResumeNote? && !k.BandNote? && e.purpose == Ordinary && e.notBefore <= at && Keeps(e, at)
  }

  /** An owner at rest finds only due, ordinary mail, and no startup to recover. */
  ghost predicate PlainQueue(d: Disk, at: Time) {
    PlainMail(d, at) && d.agent.cleanup.None? && d.agent.input.None? && BandsSound(d.agent) && !StartupRetained(d)
  }

  lemma {:induction false} SweepKeeps(d: Disk, pending: seq<Envelope>, n: nat, at: Time, k: EnvelopeID)
    requires n <= |pending| && forall i | 0 <= i < n :: pending[i].id == k ==> Keeps(pending[i], at)
    ensures var s := WithoutExpired(d, pending, n, at);
            s.agent == d.agent && (k in s.files <==> k in d.files) && (k in d.files ==> s.files[k] == d.files[k])
  {
    if n > 0 {
      SweepKeeps(d, pending, n - 1, at, k);
    }
  }

  /** Taking up mail withdraws nothing that is filed and nothing that has not expired. */
  lemma PickKeeps(d: Disk, at: Time, k: EnvelopeID)
    requires In(d, k, New) ==> Keeps(d.files[k].envelope, at)
    ensures var p := Picked(d, Mail(d), at).disk;
            p.agent == d.agent && (k in p.files <==> k in d.files) && (k in d.files ==> p.files[k] == d.files[k])
  {
    var pending := Mail(d);
    if exists p :: Listing(d, p) {
      ListedOnes(d, pending);
    }
    hide Mail, Listing;
    if ReservedIn(d.agent, pending) == |pending| {
      SweepKeeps(d, pending, DueIn(pending, at), at, k);
    }
  }

  /** A turn that is not free types nothing, ends the drain and leaves the queue, apart from what
      expired; so does one that meets a retained failed startup. */
  lemma StoppedTurn(t: State, at: Time, turns: seq<Turn>, k: EnvelopeID)
    requires at != 0 && turns != [] && (!turns[0].free || StartupRetained(t.disk))
    requires In(t.disk, k, New) ==> Keeps(t.disk.files[k].envelope, at)
    ensures var n := Drained(t, at, turns);
            && n.ok && n.state.world == t.world && n.state.disk.agent == t.disk.agent
            && (k in t.disk.files <==> k in n.state.disk.files) && (k in t.disk.files ==> n.state.disk.files[k] == t.disk.files[k])
  {
    PickKeeps(t.disk, at, k);
    if StartupRetained(t.disk) {
      PickKeeps(t.disk, at, t.disk.agent.lastFailed.value);
    }
    hide Picked, Mail;
    DrainUnfolds(t, at, turns);
  }

  lemma StoppedTypesNothing(t: State, at: Time, turns: seq<Turn>)
    requires at != 0 && turns != [] && (!turns[0].free || StartupRetained(t.disk))
    ensures var n := Drained(t, at, turns); n.ok && n.state.world == t.world && n.state.disk.agent == t.disk.agent
  {
    if t.disk.agent.lastFailed.Some? {
      SweptAway(t.disk, at, t.disk.agent.lastFailed.value);
    }
    SweptAway(t.disk, at, Message(0));
    SweepKeepsStartup(t.disk, at);
    hide Picked, Mail, FailedStartup;
    DrainUnfolds(t, at, turns);
  }

  /** What filing an input does to every other file. */
  lemma FinishedSpares(d: Disk, at: Time, e: Envelope, outcome: Outcome, reason: string, x: EnvelopeID)
    requires at != 0 && outcome != NoOutcome && BandsSound(d.agent) && d.agent.cleanup.None?
    ensures var n := Finished(d, at, e, outcome, reason);
            && (x != e.id && x in n.files ==> x in d.files && n.files[x] == d.files[x])
            && (x != e.id && In(d, x, New) && !x.BandNote? ==> x in n.files)
            && e.id in n.files && n.files[e.id] == File(DirectoryOf(outcome), Closed(e, outcome, reason))
  {
    SettledSpares(d, e, outcome, reason, x);
    SettledSpares(d, e, outcome, reason, e.id);
    var n := Settled(d, e, outcome, reason);
    hide Settled;
    if e.stamp.Some? && outcome == Delivered {
      NotesGone(n, n.agent.bands.pending, e.stamp.value, e.id, x);
      NotesGone(n, n.agent.bands.pending, e.stamp.value, e.id, e.id);
    }
    hide InputDone, WithoutNotes;
  }

  lemma SettledSpares(d: Disk, e: Envelope, outcome: Outcome, reason: string, x: EnvelopeID)
    requires outcome != NoOutcome && d.agent.cleanup.None?
    ensures var n := Settled(d, e, outcome, reason);
            && (x != e.id && x in n.files ==> x in d.files && n.files[x] == d.files[x])
            && (x != e.id && In(d, x, New) ==> x in n.files)
            && e.id in n.files && n.files[e.id] == File(DirectoryOf(outcome), Closed(e, outcome, reason))
            && n.agent.bands == d.agent.bands && n.agent.cleanup.None?
            && (n.agent.lastFailed == d.agent.lastFailed || n.agent.lastFailed == Some(e.id) || n.agent.lastFailed.None?)
  {
  }

  /** What filing an input does to the record. */
  lemma FinishedRecord(d: Disk, at: Time, e: Envelope, outcome: Outcome, reason: string)
    requires at != 0 && outcome != NoOutcome && BandsSound(d.agent) && d.agent.cleanup.None? && Holds(d.agent, e.id)
    ensures var a := Finished(d, at, e, outcome, reason).agent;
            && a.input.None? && a.cleanup.None? && BandsSound(a)
            && (a.lastFailed == d.agent.lastFailed || a.lastFailed == Some(e.id) || a.lastFailed.None?)
  {
    SettledSpares(d, e, outcome, reason, e.id);
    SettledHolds(d, e, outcome, reason);
    var n := Settled(d, e, outcome, reason);
    hide Settled;
    var f := StampSettled(n, e, outcome);
    if e.stamp.Some? && outcome == Delivered {
      KeptAreBands(n.agent.bands.pending, e.stamp.value);
      StampOnlyBands(n, e, outcome);
    }
    hide StampSettled, KeptNotes;
    InputDoneEnds(f.agent, at, e.id, outcome, reason);
  }

  lemma SettledHolds(d: Disk, e: Envelope, outcome: Outcome, reason: string)
    ensures Settled(d, e, outcome, reason).agent.input == d.agent.input
  {
  }

  lemma {:induction false} KeptAreBands(notes: seq<Envelope>, crossed: set<EnvelopeID>)
    requires forall n <- notes :: n.id.BandNote? && n.outcome == NoOutcome
    ensures forall n <- KeptNotes(notes, crossed) :: n.id.BandNote? && n.outcome == NoOutcome
  {
    forall n <- KeptNotes(notes, crossed) ensures n.id.BandNote? && n.outcome == NoOutcome {
      NotesKept(notes, crossed, n);
    }
  }

  lemma StampOnlyBands(d: Disk, e: Envelope, outcome: Outcome)
    ensures var a := StampSettled(d, e, outcome).agent;
            a == d.agent.(bands := a.bands)
    ensures e.stamp.Some? && outcome == Delivered ==>
            StampSettled(d, e, outcome).agent.bands.pending == KeptNotes(d.agent.bands.pending, e.stamp.value)
    ensures e.stamp.None? || outcome != Delivered ==> StampSettled(d, e, outcome) == d
  {
    if e.stamp.Some? && outcome == Delivered {
      NotesLeave(d, d.agent.bands.pending, e.stamp.value, e.id);
    }
  }

  /** What one attempt does to the files and the record. */
  lemma AttemptSpares(d: Disk, at: Time, e: Envelope, fit: nat, v: Verdict, k: EnvelopeID)
    requires at != 0 && In(d, e.id, New) && d.files[e.id].envelope == e && Result(e, v) != NoOutcome && !IsStartup(e)
    requires d.agent.cleanup.None? && d.agent.input.None? && BandsSound(d.agent)
    ensures var n := Attempted(d, at, e, fit, v);
            && (k != e.id && k in n.files ==> k in d.files && n.files[k] == d.files[k])
            && (k != e.id && In(d, k, New) && !k.BandNote? ==> k in n.files)
            && e.id in n.files && n.files[e.id].dir != New && n.files[e.id].envelope.purpose == e.purpose
            && n.agent.input.None? && n.agent.cleanup.None? && BandsSound(n.agent)
            && (n.agent.lastFailed == d.agent.lastFailed || n.agent.lastFailed == Some(e.id) || n.agent.lastFailed.None?)
  {
    var held, stamped := AttemptIsFinish(d, at, e, fit, v);
    hide Attempted, Finished, Result, BandsSound;
    BandsMove(d.agent, held.agent);
    FinishedRecord(held, at, stamped, Result(e, v), v.reason);
    FinishedSpares(held, at, stamped, Result(e, v), v.reason, k);
    FinishedSpares(held, at, stamped, Result(e, v), v.reason, e.id);
  }

  /** An attempt files the stamped envelope under its saved intent. */
  lemma AttemptIsFinish(d: Disk, at: Time, e: Envelope, fit: nat, v: Verdict) returns (held: Disk, stamped: Envelope)
    requires at != 0 && In(d, e.id, New) && !IsStartup(e)
    ensures Attempted(d, at, e, fit, v) == Finished(held, at, stamped, Result(e, v), v.reason)
    ensures stamped.id == e.id && stamped.purpose == e.purpose && held.files == d.files[e.id := File(New, stamped)]
    ensures Holds(held.agent, e.id) && held.agent == d.agent.(input := held.agent.input, changedAt := held.agent.changedAt)
  {
    hide Finished, IDs;
    stamped := Stamp(e, d.agent.bands.pending, fit);
    assert IsStartup(stamped) == IsStartup(e);
    held := Put(d, stamped).(agent := InputBegun(d.agent, at, EnvelopeInput(e.id)));
    assert Put(held, stamped) == held;
  }

  lemma BandsMove(a: Agent, b: Agent)
    requires BandsSound(a) && b.bands == a.bands
    ensures BandsSound(b)
  {
  }

  /** One attempt on plain mail takes its envelope out of the queue and leaves the rest as it was. */
  lemma PlainAttempt(d: Disk, at: Time, e: Envelope, fit: nat, v: Verdict)
    requires at != 0 && PlainQueue(d, at) && In(d, e.id, New) && d.files[e.id].envelope == e && Result(e, v) != NoOutcome
    ensures var n := Attempted(d, at, e, fit, v);
            && PlainQueue(n, at) && QueuedIDs(n) == QueuedIDs(d) - {e.id}
            && forall k <- QueuedIDs(n) :: n.files[k] == d.files[k]
  {
    var n := Attempted(d, at, e, fit, v);
    hide Attempted, Result, BandsSound, Keeps;
    forall k
      ensures k != e.id && k in n.files ==> k in d.files && n.files[k] == d.files[k]
      ensures In(n, k, New) <==> In(d, k, New) && k != e.id
    {
      AttemptSpares(d, at, e, fit, v, k);
    }
    AttemptSpares(d, at, e, fit, v, e.id);
    StillPlain(d, n, at, e.id);
  }

  lemma StillPlain(d: Disk, n: Disk, at: Time, id: EnvelopeID)
    requires PlainQueue(d, at) && n.agent.input.None? && n.agent.cleanup.None? && BandsSound(n.agent)
    requires forall k :: In(n, k, New) <==> In(d, k, New) && k != id
    requires forall k <- n.files :: k != id ==> k in d.files && n.files[k] == d.files[k]
    requires id in n.files && n.files[id].envelope.purpose == Ordinary
    requires n.agent.lastFailed == d.agent.lastFailed || n.agent.lastFailed == Some(id) || n.agent.lastFailed.None?
    ensures PlainQueue(n, at) && QueuedIDs(n) == QueuedIDs(d) - {id} && forall k <- QueuedIDs(n) :: n.files[k] == d.files[k]
  {
    forall k ensures k in QueuedIDs(n) <==> k in QueuedIDs(d) && k != id {
      assert In(n, k, New) <==> In(d, k, New) && k != id;
    }
  }

  lemma {:induction false} NothingSwept(d: Disk, pending: seq<Envelope>, n: nat, at: Time)
    requires n <= |pending| && forall i | 0 <= i < n :: Keeps(pending[i], at)
    ensures WithoutExpired(d, pending, n, at) == d
  {
    if n > 0 {
      NothingSwept(d, pending, n - 1, at);
    }
  }

  /** Of plain mail something is taken up while there is any, and nothing is withdrawn. */
  lemma PlainPick(d: Disk, at: Time)
    requires PlainQueue(d, at)
    ensures var p := Picked(d, Mail(d), at);
            && p.disk == d && (p.next.None? <==> QueuedIDs(d) == {})
            && (p.next.Some? ==> In(d, p.next.value.id, New) && d.files[p.next.value.id].envelope == p.next.value)
  {
    KeyedMail(d);
    var pending := Mail(d);
    ListedOnes(d, pending);
    NothingSwept(d, pending, DueIn(pending, at), at);
    PickIsFirst(d, at);
    hide Mail, Listing;
    var next := Picked(d, pending, at).next;
    if next.None? {
      forall k | In(d, k, New) ensures false {
      }
      assert QueuedIDs(d) == {};
    } else {
      assert next.value.id in QueuedIDs(d);
    }
    assert Picked(d, pending, at).disk == d;
  }

  /** A turn that does not end the drain on plain mail: free, and its paste not withdrawn. */
  predicate GoesOn(turn: Turn) {
    && turn.free && turn.late.None? && !turn.verdict.NotSubmitted?
    && (turn.verdict.Sent? ==> turn.verdict.outcome in {Delivered, Accepted, Unverified})
  }

  lemma PlainTurn(t: State, at: Time, turns: seq<Turn>)
    requires at != 0 && turns != [] && GoesOn(turns[0]) && PlainQueue(t.disk, at) && Picked(t.disk, Mail(t.disk), at).next.Some?
    ensures var e, turn := Picked(t.disk, Mail(t.disk), at).next.value, turns[0];
            var n := State(Attempted(t.disk, at, e, turn.fit, turn.verdict),
                           if turn.verdict.Sent? then Pressed(t.world, e.id) else t.world);
            && In(t.disk, e.id, New) && t.disk.files[e.id].envelope == e
            && Drained(t, at, turns) == Drained(n, at, turns[1..])
  {
    PlainPick(t.disk, at);
    var e := Picked(t.disk, Mail(t.disk), at).next.value;
    hide PlainQueue, Picked, Mail, Attempted;
    DrainUnfolds(t, at, turns);
    assert t.(disk := t.disk) == t;
  }

  /** What turns that do not end a drain come to on plain mail: they take one envelope each, until the
      queue is empty or the turns are; what is submitted is typed once. */
  ghost predicate Drains(t: State, turns: seq<Turn>, n: Done) {
    var queue, rest := QueuedIDs(t.disk), QueuedIDs(n.state.disk);
    && n.ok && rest <= queue && |rest| == (if |turns| < |queue| then |queue| - |turns| else 0)
    && ((forall turn <- turns :: turn.verdict.Sent?) ==> n.state.world.typed == t.world.typed + multiset(queue - rest))
    && ((forall turn <- turns :: !turn.verdict.Sent?) ==> n.state.world.typed == t.world.typed)
  }

  lemma DrainsOne(t: State, turns: seq<Turn>, id: EnvelopeID, n: State, done: Done)
    requires turns != [] && id in QueuedIDs(t.disk) && QueuedIDs(n.disk) == QueuedIDs(t.disk) - {id}
    requires n.world == if turns[0].verdict.Sent? then Pressed(t.world, id) else t.world
    requires Drains(n, turns[1..], done)
    ensures Drains(t, turns, done)
  {
    var queue, rest := QueuedIDs(t.disk), QueuedIDs(done.state.disk);
    assert turns == [turns[0]] + turns[1..];
    assert turns[0] in turns && forall x <- turns[1..] :: x in turns;
    assert queue - rest == {id} + (queue - {id} - rest);
    assert multiset(queue - rest) == multiset{id} + multiset(queue - {id} - rest);
  }

  lemma {:induction false} DrainsPlain(t: State, at: Time, turns: seq<Turn>)
    requires at != 0 && PlainQueue(t.disk, at) && forall turn <- turns :: GoesOn(turn)
    ensures Drains(t, turns, Drained(t, at, turns))
    decreases |turns|
  {
    var p := Picked(t.disk, Mail(t.disk), at);
    PlainPick(t.disk, at);
    hide PlainQueue, Picked, Mail, Attempted, Drained, Drains;
    if turns == [] || p.next.None? {
      DrainsNothing(t, at, turns);
    } else {
      var e, turn := p.next.value, turns[0];
      assert turn in turns && forall x <- turns[1..] :: x in turns;
      PlainTurn(t, at, turns);
      PlainAttempt(t.disk, at, e, turn.fit, turn.verdict);
      var n := State(Attempted(t.disk, at, e, turn.fit, turn.verdict),
                     if turn.verdict.Sent? then Pressed(t.world, e.id) else t.world);
      DrainsPlain(n, at, turns[1..]);
      DrainsOne(t, turns, e.id, n, Drained(n, at, turns[1..]));
    }
  }

  lemma DrainsNothing(t: State, at: Time, turns: seq<Turn>)
    requires at != 0 && PlainQueue(t.disk, at) && (turns == [] || Picked(t.disk, Mail(t.disk), at).next.None?)
    ensures Drains(t, turns, Drained(t, at, turns))
  {
    PlainPick(t.disk, at);
    hide PlainQueue, Picked, Mail;
    DrainUnfolds(t, at, turns);
    assert t.(disk := t.disk) == t;
    assert QueuedIDs(t.disk) - QueuedIDs(t.disk) == {};
  }

  /** A paste that was withdrawn from the composer ends the drain: its envelope is filed, nothing is
      typed, and the rest of the queue waits. */
  lemma WithdrawnPasteEnds(t: State, at: Time, turns: seq<Turn>)
    requires at != 0 && turns != [] && turns[0].free && turns[0].verdict.NotSubmitted? && turns[0].verdict.cleared
    requires PlainQueue(t.disk, at) && QueuedIDs(t.disk) != {}
    requires forall k <- QueuedIDs(t.disk) :: t.disk.files[k].envelope.from.kind != GanglineSender
    ensures var n := Drained(t, at, turns);
            && n.ok && n.state.world == t.world && QueuedIDs(n.state.disk) <= QueuedIDs(t.disk)
            && |QueuedIDs(n.state.disk)| == |QueuedIDs(t.disk)| - 1
  {
    PlainPick(t.disk, at);
    var e, turn := Picked(t.disk, Mail(t.disk), at).next.value, turns[0];
    assert e.id in QueuedIDs(t.disk) && e.from.kind != GanglineSender;
    assert Result(e, turn.verdict) == Failed;
    PlainAttempt(t.disk, at, e, turn.fit, turn.verdict);
    hide PlainQueue, Picked, Mail, Attempted, Result, Drained;
    WithdrawnTurn(t, at, turns, e);
    assert |QueuedIDs(t.disk) - {e.id}| == |QueuedIDs(t.disk)| - 1;
  }

  lemma WithdrawnTurn(t: State, at: Time, turns: seq<Turn>, e: Envelope)
    requires at != 0 && turns != [] && turns[0].free && turns[0].verdict.NotSubmitted? && turns[0].verdict.cleared
    requires Picked(t.disk, Mail(t.disk), at) == Pick(t.disk, Some(e)) && In(t.disk, e.id, New)
    requires e.purpose == Ordinary && !e.id.ResumeNote? && e.from.kind != GanglineSender && !StartupRetained(t.disk)
    ensures Drained(t, at, turns) ==
            Done(State(Attempted(t.disk, at, e, turns[0].fit, turns[0].verdict), t.world), true)
  {
    assert t.(disk := t.disk) == t;
    assert Result(e, turns[0].verdict) == Failed && !IsResume(e) && !FailedStartup(t.disk);
    hide Picked, Mail, Attempted, Result, IsResume, FailedStartup, Drained;
    var n := State(Attempted(t.disk, at, e, turns[0].fit, turns[0].verdict), t.world);
    assert DeliveryDone(t, at, e, turns[0].fit, turns[0].verdict, turns[0].late) == Done(n, true);
    assert EndsDrain(n.disk.agent, e, turns[0].verdict);
    hide DeliveryDone, EndsDrain;
    DrainUnfolds(t, at, turns);
  }

  /** Settling deadlines and going on with the compaction leave plain mail of an active agent that has no
      compaction as it is. */
  lemma ReadyIsPlain(t: State, at: Time)
    requires at != 0 && PlainQueue(t.disk, at) && t.disk.agent.compaction.None? && t.disk.agent.status == Active
    ensures var n := DrainReady(t, at);
            && n.world == t.world && n.disk.files == t.disk.files && n.disk.agent.status == Active && PlainQueue(n.disk, at)
  {
    DeadlinesSpare(t.disk.agent, at);
    hide DeadlinesDone;
  }

  lemma DeadlinesSpare(a: Agent, at: Time)
    requires at != 0
    ensures var b := DeadlinesDone(a, at);
            && SameReceipts(a, b) && b.bands == a.bands && (a.input.None? ==> b.input.None?)
            && (a.compaction.None? <==> b.compaction.None?) && (a.status == Active <==> b.status == Active)
            && (a.compaction.Some? ==> b.compaction.value.id == a.compaction.value.id)
  {
    if Overdue(a, at) {
      Unconfirmed(a, at);
    }
    var b := if Overdue(a, at) then Applied(a, at, CompactionUnconfirmed(a.compaction.value.id, UNCONFIRMED, false)) else a;
    CheckSpares(b, at);
    hide Applied;
  }

  lemma Unconfirmed(a: Agent, at: Time)
    requires at != 0 && a.compaction.Some?
    ensures var b := Applied(a, at, CompactionUnconfirmed(a.compaction.value.id, UNCONFIRMED, false));
            && SameReceipts(a, b) && b.bands == a.bands && b.input.None? && b.status == a.status
            && Current(b, a.compaction.value.id)
  {
  }

  lemma CheckSpares(a: Agent, at: Time)
    requires at != 0
    ensures var b := Applied(a, at, DeadlineChecked);
            && SameReceipts(a, b) && b.bands == a.bands && b.input == a.input && (a.status == Active <==> b.status == Active)
            && (a.compaction.None? <==> b.compaction.None?)
            && (a.compaction.Some? ==> b.compaction.value.id == a.compaction.value.id)
  {
    Checked(a, at);
    hide Step;
  }

  /** Neither do they settle a failed startup. */
  lemma StartupStays(t: Durable, at: Time)
    requires at != 0 && StartupRetained(t.disk) && t.disk.agent.input.None?
    ensures StartupRetained(DrainReady(t, at).disk)
  {
    var n := t.(disk := t.disk.(agent := DeadlinesDone(t.disk.agent, at)));
    DeadlinesSpare(t.disk.agent, at);
    FileIsSound(t.disk, t.world, t.disk.agent.lastFailed.value);
    if t.disk.agent.compaction.Some? && NoteOf(t.disk.agent) in t.disk.files {
      FileIsSound(t.disk, t.world, NoteOf(t.disk.agent));
    }
    hide Inv, DeadlinesDone;
    ContinuedKeepsStartup(n, at);
  }

  lemma ContinuedKeepsStartup(n: State, at: Time)
    requires at != 0 && StartupRetained(n.disk) && NoteLabelled(n.disk)
    requires n.disk.agent.compaction.Some? ==> n.disk.agent.lastFailed != Some(NoteOf(n.disk.agent))
    ensures StartupRetained(Continued(n, at).disk)
  {
    var c := n.(disk := n.disk.(agent := Completing(n.disk.agent)));
    if Withheld(c.disk) {
      LossKeepsStartup(c, at, NOT_ENTERED);
    }
    hide Lost;
  }

  lemma LossKeepsStartup(t: State, at: Time, reason: string)
    requires at != 0 && StartupRetained(t.disk) && t.disk.agent.compaction.Some? && NoteLabelled(t.disk)
    requires t.disk.agent.lastFailed != Some(NoteOf(t.disk.agent))
    ensures StartupRetained(Lost(t, at, reason).disk)
  {
    var f := t.disk.(agent := FailureOf(t.disk, at, reason));
    assert f.agent.lastFailed == t.disk.agent.lastFailed;
    hide FailureOf;
    CancelKeepsStartup(f, t.disk.agent.compaction.value.id, reason);
    hide ResumeCancelled;
  }

  lemma CancelKeepsStartup(d: Disk, c: nat, reason: string)
    requires StartupRetained(d) && d.agent.lastFailed != Some(ResumeNote(c))
    requires ResumeNote(c) in d.files ==> d.files[ResumeNote(c)].envelope.id == ResumeNote(c)
    ensures StartupRetained(ResumeCancelled(d, c, reason))
  {
    hide Settled;
  }

  /** What was withdrawn is no startup that failed. */
  lemma SweepKeepsStartup(d: Disk, at: Time)
    ensures FailedStartup(Picked(d, Mail(d), at).disk) <==> StartupRetained(d)
  {
    if d.agent.lastFailed.Some? && In(d, d.agent.lastFailed.value, FailedDir) {
      PickKeeps(d, at, d.agent.lastFailed.value);
    } else if d.agent.lastFailed.Some? {
      SweptAway(d, at, d.agent.lastFailed.value);
    } else {
      SweptAway(d, at, Message(0));
    }
  }

  lemma SweptAway(d: Disk, at: Time, k: EnvelopeID)
    ensures var p := Picked(d, Mail(d), at).disk;
            p.agent == d.agent && (k in p.files ==> k in d.files && p.files[k] == d.files[k])
  {
    var pending := Mail(d);
    hide Mail;
    if ReservedIn(d.agent, pending) == |pending| {
      SweptOnly(d, pending, DueIn(pending, at), at, k);
    }
  }

  lemma {:induction false} SweptOnly(d: Disk, pending: seq<Envelope>, n: nat, at: Time, k: EnvelopeID)
    requires n <= |pending|
    ensures var s := WithoutExpired(d, pending, n, at); s.agent == d.agent && (k in s.files ==> k in d.files && s.files[k] == d.files[k])
  {
    if n > 0 {
      SweptOnly(d, pending, n - 1, at, k);
    }
  }

  /** All of this in one: what a lived-through drain comes to. */
  lemma DrainsTold(t: State, at: Time, turns: seq<Turn>)
    requires at != 0
    ensures turns != [] && (!turns[0].free || StartupRetained(t.disk)) ==>
      var n := Drained(t, at, turns);
      && n.ok && n.state.world == t.world && n.state.disk.agent == t.disk.agent
      && forall k | In(t.disk, k, New) && Keeps(t.disk.files[k].envelope, at) ::
           In(n.state.disk, k, New) && n.state.disk.files[k] == t.disk.files[k]
    ensures PlainQueue(t.disk, at) && (forall turn <- turns :: GoesOn(turn)) ==> Drains(t, turns, Drained(t, at, turns))
    ensures PlainQueue(t.disk, at) && QueuedIDs(t.disk) != {}
            && (forall k <- QueuedIDs(t.disk) :: t.disk.files[k].envelope.from.kind != GanglineSender)
            && turns != [] && turns[0].free && turns[0].verdict.NotSubmitted? && turns[0].verdict.cleared ==>
      var n := Drained(t, at, turns); n.ok && n.state.world == t.world && |QueuedIDs(n.state.disk)| == |QueuedIDs(t.disk)| - 1
  {
    hide Drained, Drains, PlainQueue, StartupRetained;
    if turns != [] && (!turns[0].free || StartupRetained(t.disk)) {
      forall k | In(t.disk, k, New) && Keeps(t.disk.files[k].envelope, at)
        ensures In(Drained(t, at, turns).state.disk, k, New) && Drained(t, at, turns).state.disk.files[k] == t.disk.files[k]
      {
        StoppedTurn(t, at, turns, k);
      }
      StoppedTypesNothing(t, at, turns);
    }
    if PlainQueue(t.disk, at) && forall turn <- turns :: GoesOn(turn) {
      DrainsPlain(t, at, turns);
    }
    if PlainQueue(t.disk, at) && QueuedIDs(t.disk) != {} && turns != [] && turns[0].free && turns[0].verdict.NotSubmitted?
       && turns[0].verdict.cleared && forall k <- QueuedIDs(t.disk) :: t.disk.files[k].envelope.from.kind != GanglineSender {
      WithdrawnPasteEnds(t, at, turns);
    }
  }

  /** What a drain finds once it settled the deadlines and went on with the compaction. */
  lemma ReadyStands(t: Durable, at: Time)
    requires at != 0 && t.disk.agent.input.None?
    ensures var n := DrainReady(t, at);
            && (StartupRetained(t.disk) ==> StartupRetained(n.disk))
            && (t.disk.agent.status != Active ==> n.disk.agent.status != Active)
            && (PlainQueue(t.disk, at) && t.disk.agent.compaction.None? && t.disk.agent.status == Active ==>
                  n.world == t.world && n.disk.files == t.disk.files && n.disk.agent.status == Active && PlainQueue(n.disk, at))
  {
    DeadlinesSpare(t.disk.agent, at);
    ContinuedKeepsStatus(t.(disk := t.disk.(agent := DeadlinesDone(t.disk.agent, at))), at);
    hide Inv, DeadlinesDone, Continued, DrainReady, StartupRetained, PlainQueue;
    if StartupRetained(t.disk) {
      StartupStays(t, at);
    }
    if PlainQueue(t.disk, at) && t.disk.agent.compaction.None? && t.disk.agent.status == Active {
      ReadyIsPlain(t, at);
    }
    assert DrainReady(t, at).disk.agent.status == DeadlinesDone(t.disk.agent, at).status by {
      DrainReadyIs(t, at);
    }
  }

  lemma DrainReadyIs(t: State, at: Time)
    requires at != 0
    ensures DrainReady(t, at) == Continued(t.(disk := t.disk.(agent := DeadlinesDone(t.disk.agent, at))), at)
  {
  }

  lemma ContinuedKeepsStatus(t: State, at: Time)
    requires at != 0
    ensures Continued(t, at).disk.agent.status == t.disk.agent.status
  {
    if Withheld(t.disk.(agent := Completing(t.disk.agent))) {
      LossKeepsStatus(t.(disk := t.disk.(agent := Completing(t.disk.agent))), at, NOT_ENTERED);
    }
    hide Lost;
  }

  lemma LossKeepsStatus(t: State, at: Time, reason: string)
    requires at != 0 && t.disk.agent.compaction.Some?
    ensures Lost(t, at, reason).disk.agent.status == t.disk.agent.status
  {
    var f := t.disk.(agent := FailureOf(t.disk, at, reason));
    assert f.agent.status == t.disk.agent.status;
    hide FailureOf;
    CancelKeepsStatus(f, t.disk.agent.compaction.value.id, reason);
    hide ResumeCancelled;
  }

  lemma CancelKeepsStatus(d: Disk, c: nat, reason: string)
    ensures ResumeCancelled(d, c, reason).agent.status == d.agent.status
  {
  }
}
