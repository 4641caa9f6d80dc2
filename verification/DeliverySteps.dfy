/** Each kind of durable write of the delivery protocol keeps the invariant. */
module DeliverySteps {
  import opened Records
  import opened AgentStep
  import opened DeliveryState

  /** The record without any receipt named `id`. */
  function Forget(a: Agent, id: EnvelopeID): Agent {
    a.(lastAccepted := if a.lastAccepted == Some(id) then None else a.lastAccepted,
       lastDelivered := if a.lastDelivered == Some(id) then None else a.lastDelivered,
       lastFailed := if a.lastFailed == Some(id) then None else a.lastFailed)
  }

  function DirectoryOf(outcome: Outcome): Directory {
    if outcome == Delivered || outcome == Accepted then Cur else FailedDir
  }

  function Receipt(a: Agent, outcome: Outcome): Option<EnvelopeID> {
    if outcome == Delivered then a.lastDelivered
    else if outcome == Accepted then a.lastAccepted
    else a.lastFailed
  }

  function WithReceipt(a: Agent, outcome: Outcome, id: EnvelopeID): Agent {
    if outcome == Accepted then a.(lastAccepted := Some(id))
    else if outcome == Delivered then a.(lastDelivered := Some(id))
    else a.(lastFailed := Some(id))
  }

  function Replaced(a: Agent, outcome: Outcome, id: EnvelopeID): Option<ResultRef> {
    var previous := Receipt(a, outcome);
    if previous.Some? && previous.value != id then Some(ResultRef(previous.value, DirectoryOf(outcome))) else None
  }

  /** The record that names `id` as its latest receipt, and the one it replaces for removal. */
  function Receipted(a: Agent, outcome: Outcome, id: EnvelopeID): Agent {
    WithReceipt(a.(cleanup := Replaced(a, outcome, id)), outcome, id)
  }

  /** A marooned note that the record names as a receipt. */
  predicate Adrift(d: Disk, id: EnvelopeID) {
    Marooned(d, id) && (d.agent.lastFailed == Some(id) || d.agent.lastAccepted == Some(id))
  }

  /** A filed note of the current, failed compaction is renamed back into `new`. */
  predicate TakenBack(d: Disk, n: Disk, id: EnvelopeID) {
    && id.ResumeNote? && id in d.files && d.files[id].dir != New
    && FailedCompaction(d.agent, id.compaction) && n == Move(d, id, New)
  }

  /** The compaction of a queued note is saved as failed. */
  predicate LostAfloat(d: Disk, n: Disk, id: EnvelopeID) {
    && id.ResumeNote? && In(d, id, New) && n.files == d.files
    && Current(d.agent, id.compaction) && !FailedCompaction(d.agent, id.compaction) && FailedCompaction(n.agent, id.compaction)
  }

  /** A new request replaces the compaction of a queued note, which has not failed. */
  predicate Supplanted(d: Disk, n: Disk, id: EnvelopeID) {
    && id.ResumeNote? && In(d, id, New) && n.files == d.files
    && Current(d.agent, id.compaction) && !FailedCompaction(d.agent, id.compaction)
    && n.agent.compaction.Some? && n.agent.compaction.value.status == Queued && n.agent.compaction.value.id != id.compaction
  }

  /** What any single write may do to resume notes: one becomes marooned only when its compaction is
      saved as failed, when it is taken back after that, or when a request replaces its compaction; and
      the record comes to name a marooned one only by taking it back. */
  ghost predicate Steady(d: Disk, n: Disk) {
    && (forall id | Marooned(n, id) && !Marooned(d, id) :: TakenBack(d, n, id) || LostAfloat(d, n, id) || Supplanted(d, n, id))
    && (forall id | Adrift(n, id) && !Adrift(d, id) :: TakenBack(d, n, id))
  }

  /** Files may leave the queue, and enter it if they are held or not abandoned. */
  lemma FilesSteady(d: Disk, n: Disk)
    requires n.agent == d.agent
    requires forall id | In(n, id, New) :: In(d, id, New) || Holds(d.agent, id) || !Abandoned(d.agent, id)
    ensures Steady(d, n)
  {
  }

  /** A record may be saved that abandons nothing more and names nothing more that is queued. */
  lemma RecordSteady(d: Disk, b: Agent)
    requires forall id | In(d, id, New) && Abandoned(b, id) && !Holds(b, id) :: Abandoned(d.agent, id) && !Holds(d.agent, id)
    requires forall id | b.lastFailed == Some(id) || b.lastAccepted == Some(id) ::
      d.agent.lastFailed == Some(id) || d.agent.lastAccepted == Some(id) || !In(d, id, New)
    ensures Steady(d, d.(agent := b))
  {
  }

  /** The disk once the receipt awaiting removal is gone. */
  function Cleaned(d: Disk): Disk {
    match d.agent.cleanup
    case None => d
    case Some(r) => Remove(d, r.id, r.directory).(agent := d.agent.(cleanup := None))
  }

  lemma NothingToClean(d: Disk)
    ensures (d.agent.cleanup.None? ==> Cleaned(d) == d) && Cleaned(d).agent == d.agent.(cleanup := None)
  {
  }

  /** Removing a receipt never touches the queue or the envelope the intent names. */
  lemma CleanupSpares(d: Disk, w: World, id: EnvelopeID)
    requires Inv(d, w)
    ensures Cleaned(d).agent == d.agent.(cleanup := None)
    ensures In(d, id, New) ==> In(Cleaned(d), id, New) && Cleaned(d).files[id] == d.files[id]
    ensures id in d.files && Holds(d.agent, id) ==> id in Cleaned(d).files && Cleaned(d).files[id] == d.files[id]
  {
  }

  /** The two envelopes agree on who sent them, what they are for and when they are due and expire. */
  predicate SameKind(e: Envelope, f: Envelope) {
    && e.id == f.id && e.purpose == f.purpose && e.from == f.from
    && e.createdAt == f.createdAt && e.notBefore == f.notBefore && e.notAfter == f.notAfter
  }

  lemma CleanupRemoved(d: Disk, w: World)
    requires Inv(d, w) && d.agent.cleanup.Some?
    ensures var r := d.agent.cleanup.value; Inv(Remove(d, r.id, r.directory), w)
    ensures var r := d.agent.cleanup.value; Steady(d, Remove(d, r.id, r.directory))
  {
    FilesSteady(d, Remove(d, d.agent.cleanup.value.id, d.agent.cleanup.value.directory));
    hide Steady;
  }

  lemma CleanupCleared(d: Disk, w: World)
    requires Inv(d, w) && d.agent.cleanup.Some?
    ensures var r := d.agent.cleanup.value;
            Inv(Remove(d, r.id, r.directory).(agent := d.agent.(cleanup := None)), w)
    ensures var r := d.agent.cleanup.value;
            Steady(Remove(d, r.id, r.directory), Remove(d, r.id, r.directory).(agent := d.agent.(cleanup := None)))
  {
    RecordSteady(Remove(d, d.agent.cleanup.value.id, d.agent.cleanup.value.directory), d.agent.(cleanup := None));
    hide Steady, Filed, Recoverable, Pointed;
    ClearedFiles(d, w);
    ClearedPointers(d);
  }

  lemma ClearedFiles(d: Disk, w: World)
    requires Filed(d, w) && Pointed(d) && d.agent.cleanup.Some?
    ensures var r := d.agent.cleanup.value;
            Filed(Remove(d, r.id, r.directory).(agent := d.agent.(cleanup := None)), w)
  {
    var r := d.agent.cleanup.value;
    var e := Remove(d, r.id, r.directory).(agent := d.agent.(cleanup := None));
    forall id <- e.files ensures FileSound(id, e.files[id], e.agent, w) {
      assert FileSound(id, d.files[id], d.agent, w);
    }
  }

  lemma ClearedPointers(d: Disk)
    requires Recoverable(d) && Pointed(d) && d.agent.cleanup.Some?
    ensures var r := d.agent.cleanup.value;
            var n := Remove(d, r.id, r.directory).(agent := d.agent.(cleanup := None));
            Recoverable(n) && Pointed(n)
  {
  }

  /** Rewriting a queued envelope in place. */
  lemma Rewritten(d: Disk, w: World, e: Envelope)
    requires Inv(d, w) && In(d, e.id, New) && SameKind(e, d.files[e.id].envelope)
    requires e.outcome == Delivered ==> Holds(d.agent, e.id)
    requires CancelledResume(e) ==> e.id.compaction in w.dead
    ensures Inv(Put(d, e), w)
    ensures Steady(d, Put(d, e))
  {
    FilesSteady(d, Put(d, e));
    hide Steady, Filed, Recoverable, Pointed;
    RewrittenFiles(d, w, e);
    RewrittenPointers(d, e);
  }

  lemma RewrittenFiles(d: Disk, w: World, e: Envelope)
    requires Filed(d, w) && In(d, e.id, New) && SameKind(e, d.files[e.id].envelope)
    requires e.outcome == Delivered ==> Holds(d.agent, e.id)
    requires CancelledResume(e) ==> e.id.compaction in w.dead
    ensures Filed(Put(d, e), w)
  {
    forall id <- Put(d, e).files ensures FileSound(id, Put(d, e).files[id], d.agent, w) {
      assert FileSound(id, d.files[id], d.agent, w);
    }
  }

  lemma RewrittenPointers(d: Disk, e: Envelope)
    requires Recoverable(d) && Pointed(d) && In(d, e.id, New)
    ensures Recoverable(Put(d, e)) && Pointed(Put(d, e))
  {
  }

  /** Moving the held envelope anywhere keeps it held. */
  lemma HeldMoved(d: Disk, w: World, id: EnvelopeID, dir: Directory)
    requires Inv(d, w) && id in d.files && Holds(d.agent, id)
    ensures Inv(Move(d, id, dir), w)
    ensures Steady(d, Move(d, id, dir))
  {
    FilesSteady(d, Move(d, id, dir));
    hide Steady, Filed, Recoverable, Pointed;
    HeldFiles(d, w, id, dir);
    HeldPointers(d, id, dir);
  }

  lemma HeldFiles(d: Disk, w: World, id: EnvelopeID, dir: Directory)
    requires Filed(d, w) && Recoverable(d) && id in d.files && Holds(d.agent, id)
    ensures Filed(Move(d, id, dir), w)
  {
    forall k <- d.files ensures FileSound(k, Move(d, id, dir).files[k], d.agent, w) {
      assert FileSound(k, d.files[k], d.agent, w);
    }
  }

  lemma HeldPointers(d: Disk, id: EnvelopeID, dir: Directory)
    requires Recoverable(d) && Pointed(d) && id in d.files && Holds(d.agent, id)
    ensures Recoverable(Move(d, id, dir)) && Pointed(Move(d, id, dir))
  {
  }

  /** Filing a cancelled continuation that no receipt names. */
  lemma CancelledFiled(d: Disk, w: World, id: EnvelopeID)
    requires Inv(d, w) && In(d, id, New) && CancelledResume(d.files[id].envelope)
    requires d.agent.lastAccepted != Some(id) && !Unentered(d.agent, id) && id !in w.stranded
    ensures Inv(Move(d, id, FailedDir), w)
    ensures Steady(d, Move(d, id, FailedDir))
  {
    FilesSteady(d, Move(d, id, FailedDir));
    hide Steady, Filed, Recoverable, Pointed;
    CancelledFiles(d, w, id);
    CancelledPointers(d, id);
  }

  lemma CancelledFiles(d: Disk, w: World, id: EnvelopeID)
    requires Filed(d, w) && In(d, id, New) && CancelledResume(d.files[id].envelope)
    requires !Unentered(d.agent, id) && id !in w.stranded
    ensures Filed(Move(d, id, FailedDir), w)
  {
    forall k <- d.files ensures FileSound(k, Move(d, id, FailedDir).files[k], d.agent, w) {
      assert FileSound(k, d.files[k], d.agent, w);
    }
  }

  lemma CancelledPointers(d: Disk, id: EnvelopeID)
    requires Recoverable(d) && Pointed(d) && In(d, id, New) && d.agent.lastAccepted != Some(id)
    ensures Recoverable(Move(d, id, FailedDir)) && Pointed(Move(d, id, FailedDir))
  {
  }

  /** Taking a failed continuation back into `new`. */
  lemma AbandonedMovedBack(d: Disk, w: World, id: EnvelopeID)
    requires Inv(d, w) && id in d.files && id.ResumeNote? && FailedCompaction(d.agent, id.compaction)
    requires d.agent.lastDelivered != Some(id) && d.files[id].envelope.outcome != Delivered
    ensures Inv(Move(d, id, New), w)
    ensures Steady(d, Move(d, id, New))
  {
    hide Filed, Recoverable, Pointed;
    assert id.compaction in w.dead;
    hide CompactionSound;
    assert Steady(d, Move(d, id, New));
    hide Steady;
    BackFiles(d, w, id);
    BackPointers(d, id);
  }

  lemma BackFiles(d: Disk, w: World, id: EnvelopeID)
    requires Filed(d, w) && id in d.files && Abandoned(d.agent, id) && id.compaction in w.dead
    requires d.files[id].envelope.outcome != Delivered
    ensures Filed(Move(d, id, New), w)
  {
    forall k <- d.files ensures FileSound(k, Move(d, id, New).files[k], d.agent, w) {
      assert FileSound(k, d.files[k], d.agent, w);
    }
  }

  lemma BackPointers(d: Disk, id: EnvelopeID)
    requires Recoverable(d) && Pointed(d) && id in d.files && Abandoned(d.agent, id) && d.agent.lastDelivered != Some(id)
    ensures Recoverable(Move(d, id, New)) && Pointed(Move(d, id, New))
  {
  }

  /** Saving the receipt of the envelope just filed, and the one it replaces as awaiting removal. */
  lemma ReceiptSaved(d: Disk, w: World, a: Agent, id: EnvelopeID, outcome: Outcome)
    requires Inv(d, w) && d.agent.cleanup.None? && a == Forget(d.agent, id)
    requires outcome != NoOutcome && In(d, id, DirectoryOf(outcome))
    requires d.files[id].envelope.outcome == outcome
    requires Holds(d.agent, id) || d.agent.input.None?
    ensures Inv(d.(agent := Receipted(a, outcome, id)), w)
    ensures Steady(d, d.(agent := Receipted(a, outcome, id)))
  {
    RecordSteady(d, Receipted(a, outcome, id));
    hide Steady;
    hide Filed, Recoverable, Pointed;
    ReceiptedFiles(d, w, a, id, outcome);
    ReceiptedPointers(d, a, id, outcome);
  }

  lemma ReceiptedFiles(d: Disk, w: World, a: Agent, id: EnvelopeID, outcome: Outcome)
    requires Filed(d, w) && d.agent.cleanup.None? && a == Forget(d.agent, id)
    requires outcome != NoOutcome && In(d, id, DirectoryOf(outcome))
    ensures Filed(d.(agent := Receipted(a, outcome, id)), w)
  {
    var b := Receipted(a, outcome, id);
    forall k <- d.files ensures FileSound(k, d.files[k], b, w) {
      assert FileSound(k, d.files[k], d.agent, w);
    }
  }

  lemma ReceiptedPointers(d: Disk, a: Agent, id: EnvelopeID, outcome: Outcome)
    requires Recoverable(d) && Pointed(d) && d.agent.cleanup.None? && a == Forget(d.agent, id)
    requires outcome != NoOutcome && In(d, id, DirectoryOf(outcome))
    requires d.files[id].envelope.outcome == outcome
    requires Holds(d.agent, id) || d.agent.input.None?
    ensures var n := d.(agent := Receipted(a, outcome, id)); Recoverable(n) && Pointed(n)
  {
  }

  /** The two records agree on the receipts and on the one awaiting removal. */
  ghost predicate SameReceipts(a: Agent, b: Agent) {
    && a.cleanup == b.cleanup
    && a.lastAccepted == b.lastAccepted && a.lastDelivered == b.lastDelivered && a.lastFailed == b.lastFailed
  }

  /** Every continuation the later record could still type, the earlier one could too; a request
      made in between has published none. */
  ghost predicate Narrowed(a: Agent, b: Agent, w: World) {
    b.compaction.Some? && b.compaction.value.status != CompactionFailed ==>
      var c := b.compaction.value;
      || w.links[ResumeNote(c.id)] == 0
      || (&& a.compaction.Some? && a.compaction.value.id == c.id && a.compaction.value.status != CompactionFailed
          && (a.compaction.value.continuation ==> c.continuation))
  }

  /** Saving a record that keeps the receipts keeps the invariant, provided its intent and its
      compaction are sound and an intent it drops was settled. */
  lemma RecordSaved(d: Disk, w: World, b: Agent, x: World)
    requires Inv(d, w) && SameReceipts(d.agent, b) && BandsSound(b)
    requires x.typed == w.typed && x.links == w.links && Counted(x)
    requires CompactionSound(b, x) && Narrowed(d.agent, b, w)
    requires Recoverable(d.(agent := b)) && Pointed(d.(agent := b))
    requires w.dead <= x.dead && w.replaced <= x.replaced && w.stranded <= x.stranded
    requires forall id <- x.stranded :: id in w.stranded || Marooned(d.(agent := b), id)
    requires forall c <- x.replaced :: c in w.replaced || ResumeNote(c) in x.stranded
    requires forall id | Marooned(d.(agent := b), id) && !Marooned(d, id) :: id.compaction in x.dead || id.compaction in x.replaced
    requires forall id | id in d.files && Holds(d.agent, id) && !Holds(b, id) :: FileSound(id, d.files[id], b, w)
    requires forall id | Holds(b, id) && !Holds(d.agent, id) :: id !in x.stranded
    ensures Inv(d.(agent := b), x)
  {
    hide Counted, Recoverable, Pointed, CompactionSound, BandsSound;
    forall k <- d.files ensures FileSound(k, d.files[k], b, x) {
      assert FileSound(k, d.files[k], d.agent, w);
    }
  }

  /** The receipts stay good if the record holds what it held and frees no abandoned note. */
  lemma PointersSaved(d: Disk, b: Agent)
    requires Pointed(d) && SameReceipts(d.agent, b)
    requires forall id | Holds(d.agent, id) :: Holds(b, id)
    requires forall id | MovedBack(d, id) :: Abandoned(b, id)
    ensures Pointed(d.(agent := b))
  {
  }

  lemma CoreSaved(d: Disk, w: World, b: Agent)
    requires Inv(d, w) && SameReceipts(d.agent, b) && BandsSound(b)
    requires b.input == d.agent.input && b.compaction == d.agent.compaction
    ensures Inv(d.(agent := b), w)
    ensures Steady(d, d.(agent := b))
  {
    RecordSteady(d, b);
    PointersSaved(d, b);
    hide Steady, Filed, Counted, Pointed;
    RecordSaved(d, w, b, w);
  }

  /** An intent is saved only for an envelope that is filed or a compaction in the right phase. */
  lemma IntentSaved(d: Disk, w: World, b: Agent)
    requires Inv(d, w) && SameReceipts(d.agent, b) && b.bands == d.agent.bands && b.compaction == d.agent.compaction
    requires d.agent.input.None? && Recoverable(d.(agent := b))
    requires forall id | Holds(b, id) :: id !in w.stranded
    ensures Inv(d.(agent := b), w)
    ensures Steady(d, d.(agent := b))
  {
    RecordSteady(d, b);
    PointersSaved(d, b);
    hide Steady, Filed, Counted, Pointed, Recoverable;
    RecordSaved(d, w, b, w);
  }

  /** `id` is named by the receipt of its outcome and by no other. */
  ghost predicate SoleReceipt(a: Agent, outcome: Outcome, id: EnvelopeID) {
    Receipt(a, outcome) == Some(id) && a == WithReceipt(Forget(a, id), outcome, id)
  }

  /** The intent of a settled envelope is dropped. */
  lemma IntentSettled(d: Disk, w: World, b: Agent, id: EnvelopeID)
    requires Inv(d, w) && SameReceipts(d.agent, b) && b.bands == d.agent.bands && b.compaction == d.agent.compaction
    requires Holds(d.agent, id) && b.input.None? && d.agent.cleanup.None?
    requires id in d.files && SoleReceipt(d.agent, d.files[id].envelope.outcome, id)
    requires d.files[id].dir == DirectoryOf(d.files[id].envelope.outcome)
    ensures Inv(d.(agent := b), w)
    ensures Steady(d, d.(agent := b))
  {
    RecordSteady(d, b);
    DroppedPointers(d, b, id);
    DroppedFile(d, w, b, id);
    hide Steady, Filed, Counted, Pointed, FileSound;
    RecordSaved(d, w, b, w);
  }

  lemma DroppedFile(d: Disk, w: World, b: Agent, id: EnvelopeID)
    requires Filed(d, w) && Recoverable(d) && SameReceipts(d.agent, b) && b.compaction == d.agent.compaction
    requires id in d.files && SoleReceipt(d.agent, d.files[id].envelope.outcome, id) && Holds(d.agent, id)
    requires d.files[id].dir == DirectoryOf(d.files[id].envelope.outcome)
    ensures FileSound(id, d.files[id], b, w)
  {
    assert FileSound(id, d.files[id], d.agent, w);
  }

  lemma DroppedPointers(d: Disk, b: Agent, id: EnvelopeID)
    requires Pointed(d) && SameReceipts(d.agent, b) && b.compaction == d.agent.compaction
    requires Holds(d.agent, id) && b.input.None? && d.agent.cleanup.None?
    requires id in d.files && SoleReceipt(d.agent, d.files[id].envelope.outcome, id)
    requires d.files[id].dir == DirectoryOf(d.files[id].envelope.outcome)
    ensures Pointed(d.(agent := b))
  {
  }

  /** The current compaction moves on, without failing, while no envelope is being typed. */
  lemma CompactionMoved(d: Disk, w: World, b: Agent)
    requires Inv(d, w) && SameReceipts(d.agent, b) && b.bands == d.agent.bands
    requires d.agent.compaction.Some? && b.compaction.Some?
    requires var c, n := d.agent.compaction.value, b.compaction.value;
             && n.id == c.id && n.resumeFrom == c.resumeFrom && n.resumeAdmitted == c.resumeAdmitted
             && c.status != CompactionFailed && n.status != CompactionFailed
             && (n.status == Queued ==> c.status == Queued) && (c.continuation ==> n.continuation)
    requires b.input == None || (b.input == d.agent.input && b.compaction.value.status == d.agent.compaction.value.status)
    requires d.agent.input.Some? ==> !d.agent.input.value.EnvelopeInput?
    ensures Inv(d.(agent := b), w)
    ensures Steady(d, d.(agent := b))
  {
    RecordSteady(d, b);
    PointersSaved(d, b);
    hide Steady, Counted, Pointed;
    RecordSaved(d, w, b, w);
  }

  /** An envelope that is not being typed can be withdrawn, unless it is a resume note. */
  lemma Withdrawn(d: Disk, w: World, id: EnvelopeID)
    requires Inv(d, w) && !id.ResumeNote? && !Holds(d.agent, id)
    ensures Inv(Remove(d, id, New), w)
    ensures Steady(d, Remove(d, id, New))
  {
    FilesSteady(d, Remove(d, id, New));
    hide Steady, Filed, Recoverable, Pointed;
    WithdrawnFiles(d, w, id);
    WithdrawnPointers(d, id);
  }

  lemma WithdrawnFiles(d: Disk, w: World, id: EnvelopeID)
    requires Filed(d, w) && !id.ResumeNote?
    ensures Filed(Remove(d, id, New), w)
  {
    var n := Remove(d, id, New);
    forall k <- n.files ensures FileSound(k, n.files[k], d.agent, w) {
      assert FileSound(k, d.files[k], d.agent, w);
    }
    forall k <- w.stranded ensures k in n.files {
      assert FileSound(k, d.files[k], d.agent, w);
    }
  }

  lemma WithdrawnPointers(d: Disk, id: EnvelopeID)
    requires Recoverable(d) && Pointed(d) && !id.ResumeNote? && !Holds(d.agent, id)
    ensures Recoverable(Remove(d, id, New)) && Pointed(Remove(d, id, New))
  {
  }

  lemma GrowsOn(w: World, x: World, y: World)
    requires Grows(w, x) && Grows(x, y)
    ensures Grows(w, y)
  {
  }

  lemma GrowsSame(w: World)
    ensures Grows(w, w)
  {
  }

  /** One more inbox link of `id`. */
  function LinkCounted(w: World, id: EnvelopeID): World {
    w.(links := w.links + multiset{id})
  }

  lemma LinkStaysCounted(w: World, id: EnvelopeID)
    requires Counted(w) && (id.BandNote? || w.links[id] == 0)
    requires id.ResumeNote? || id.FailureNote? ==> id.compaction in w.compactions
    ensures Counted(LinkCounted(w, id))
  {
  }

  /** Publishing an envelope under a fresh identity, or a band note under its own. */
  lemma Linked(d: Disk, w: World, e: Envelope)
    requires Inv(d, w) && e.id !in d.files
    requires e.id.BandNote? || w.links[e.id] == 0
    requires e.id.ResumeNote? ==>
      && Current(d.agent, e.id.compaction) && d.agent.compaction.value.status != Queued
      && d.agent.compaction.value.status != CompactionFailed
    requires e.id.FailureNote? ==> FailedCompaction(d.agent, e.id.compaction)
    requires e.id.ResumeNote? ==> e.purpose == Resume && e.notBefore == 0 && e.notAfter == 0
    requires (IsBandNotice(e) ==> e.id.BandNote?) && e.outcome == NoOutcome
    ensures Inv(d.(files := d.files[e.id := File(New, e)]), LinkCounted(w, e.id))
    ensures Steady(d, d.(files := d.files[e.id := File(New, e)]))
  {
    FilesSteady(d, d.(files := d.files[e.id := File(New, e)]));
    hide Steady;
    hide Filed, Counted, Recoverable, Pointed;
    UnlinkedStaysOut(d, w, e.id);
    LinkStaysCounted(w, e.id);
    LinkedFiles(d, w, e);
    LinkedPointers(d, e);
  }

  /** A new owner finds out which resume notes are marooned. */
  function Noticed(d: Disk): set<EnvelopeID> {
    set id | id in d.files && Marooned(d, id)
  }

  lemma LockTaken(d: Disk, w: World)
    requires Inv(d, w)
    ensures w.stranded <= Noticed(d) && Inv(d, w.(stranded := Noticed(d)))
  {
    var x := w.(stranded := Noticed(d));
    forall id <- d.files ensures FileSound(id, d.files[id], d.agent, x) {
      assert FileSound(id, d.files[id], d.agent, w);
    }
    forall id <- w.stranded ensures id in Noticed(d) {
      assert FileSound(id, d.files[id], d.agent, w);
    }
  }

  lemma UnlinkedStaysOut(d: Disk, w: World, id: EnvelopeID)
    requires Filed(d, w) && id !in d.files
    ensures id !in w.stranded
  {
  }

  lemma LinkedFiles(d: Disk, w: World, e: Envelope)
    requires Filed(d, w) && Counted(w) && e.id !in d.files
    requires e.id.ResumeNote? ==>
      && Current(d.agent, e.id.compaction) && d.agent.compaction.value.status != Queued
      && d.agent.compaction.value.status != CompactionFailed
    requires e.id.ResumeNote? ==> e.purpose == Resume && e.notBefore == 0 && e.notAfter == 0
    requires (IsBandNotice(e) ==> e.id.BandNote?) && e.outcome == NoOutcome
    ensures Filed(d.(files := d.files[e.id := File(New, e)]), LinkCounted(w, e.id))
  {
    TypedWithinLinks(w, e.id);
    hide Counted;
    var n := d.(files := d.files[e.id := File(New, e)]);
    var x := LinkCounted(w, e.id);
    forall id <- n.files ensures FileSound(id, n.files[id], n.agent, x) {
      if id != e.id {
        assert FileSound(id, d.files[id], d.agent, w);
      }
    }
  }

  lemma LinkedPointers(d: Disk, e: Envelope)
    requires Recoverable(d) && Pointed(d) && e.id !in d.files
    ensures var n := d.(files := d.files[e.id := File(New, e)]); Recoverable(n) && Pointed(n)
  {
  }

  lemma HeldIsAfloat(d: Disk, w: World, id: EnvelopeID)
    requires Inv(d, w) && Holds(d.agent, id)
    ensures id !in w.stranded
  {
  }

  lemma TypedWithinLinks(w: World, id: EnvelopeID)
    requires Counted(w)
    ensures w.typed[id] <= w.links[id]
  {
  }

  /** Pressing the submit key for the held envelope, the first time since it was published. */
  lemma Typed(d: Disk, w: World, id: EnvelopeID)
    requires Inv(d, w) && Holds(d.agent, id) && w.typed[id] < w.links[id]
    ensures Inv(d, w.(typed := w.typed + multiset{id}))
    ensures Steady(d, d)
  {
    FilesSteady(d, d);
    hide Steady;
    var x := w.(typed := w.typed + multiset{id});
    forall k <- d.files ensures FileSound(k, d.files[k], d.agent, x) {
      assert FileSound(k, d.files[k], d.agent, w);
    }
  }

  /** The current compaction fails while no envelope is being typed. */
  lemma CompactionLost(d: Disk, w: World, b: Agent)
    requires Inv(d, w) && SameReceipts(d.agent, b) && b.bands == d.agent.bands
    requires d.agent.compaction.Some? && b.compaction.Some? && b.input.None?
    requires var c, n := d.agent.compaction.value, b.compaction.value;
             n.id == c.id && n.resumeFrom == c.resumeFrom && n.resumeAdmitted == c.resumeAdmitted && n.status == CompactionFailed
    requires d.agent.input.Some? ==> !d.agent.input.value.EnvelopeInput?
    ensures Inv(d.(agent := b), w.(dead := w.dead + {b.compaction.value.id}))
    ensures Steady(d, d.(agent := b))
  {
    hide Filed, Counted, Pointed;
    var x := w.(dead := w.dead + {b.compaction.value.id});
    LostSteady(d, b);
    hide Steady;
    LostPointers(d, b);
    LostCounts(d, w, b);
    RecordSaved(d, w, b, x);
  }

  lemma LostSteady(d: Disk, b: Agent)
    requires Pointed(d) && SameReceipts(d.agent, b) && b.compaction.Some? && d.agent.compaction.Some? && b.input.None?
    requires b.compaction.value.status == CompactionFailed && b.compaction.value.id == d.agent.compaction.value.id
    requires d.agent.input.Some? ==> !d.agent.input.value.EnvelopeInput?
    ensures Steady(d, d.(agent := b))
  {
  }

  lemma LostPointers(d: Disk, b: Agent)
    requires Pointed(d) && SameReceipts(d.agent, b) && b.compaction.Some? && d.agent.compaction.Some?
    requires b.compaction.value.status == CompactionFailed && b.compaction.value.id == d.agent.compaction.value.id
    requires d.agent.input.Some? ==> !d.agent.input.value.EnvelopeInput?
    ensures Pointed(d.(agent := b))
  {
    PointersSaved(d, b);
  }

  lemma LostCounts(d: Disk, w: World, b: Agent)
    requires Counted(w) && CompactionSound(d.agent, w) && d.agent.compaction.Some?
    requires b.compaction.Some? && b.compaction.value.id == d.agent.compaction.value.id
    ensures Counted(w.(dead := w.dead + {b.compaction.value.id}))
  {
  }

  /** A receipt that names a queued envelope can be dropped from the record. */
  lemma Forgotten(d: Disk, w: World, id: EnvelopeID)
    requires Inv(d, w) && In(d, id, New)
    ensures Inv(d.(agent := Forget(d.agent, id)), w)
    ensures Steady(d, d.(agent := Forget(d.agent, id)))
  {
    RecordSteady(d, Forget(d.agent, id));
    hide Steady, Filed, Recoverable, Pointed;
    ForgottenFiles(d, w, id);
    ForgottenPointers(d, id);
  }

  lemma ForgottenFiles(d: Disk, w: World, id: EnvelopeID)
    requires Filed(d, w) && In(d, id, New)
    ensures Filed(d.(agent := Forget(d.agent, id)), w)
  {
    var b := Forget(d.agent, id);
    forall k <- d.files ensures FileSound(k, d.files[k], b, w) {
      assert FileSound(k, d.files[k], d.agent, w);
    }
  }

  lemma ForgottenPointers(d: Disk, id: EnvelopeID)
    requires Recoverable(d) && Pointed(d)
    ensures Recoverable(d.(agent := Forget(d.agent, id))) && Pointed(d.(agent := Forget(d.agent, id)))
  {
  }

  /** What a saved intent says about the rest of the record. */
  lemma IntentPhase(d: Disk, w: World)
    requires Inv(d, w) && d.agent.input.Some?
    ensures match d.agent.input.value
            case EnvelopeInput(id) => id in d.files
            case CompactionInput(c) => Current(d.agent, c) && d.agent.compaction.value.status == Queued
            case RecoveryInput(c) => Current(d.agent, c) &&
              (d.agent.compaction.value.status == Submitted || d.agent.compaction.value.status == CompactionUnverified)
            case InterruptInput(_) => true
  {
  }

  /** The saved receipts are distinct. */
  lemma ReceiptsDistinct(d: Disk, w: World)
    requires Inv(d, w)
    ensures d.agent.lastFailed.Some? ==>
              d.agent.lastFailed != d.agent.lastAccepted && d.agent.lastFailed != d.agent.lastDelivered
    ensures d.agent.lastAccepted.Some? ==> d.agent.lastAccepted != d.agent.lastDelivered
  {
  }

  /** With no input in progress, a receipt that is not an abandoned resume note lies where the
      record says, and a note whose compaction has not failed is named only where it lies. */
  lemma ReceiptsResolve(d: Disk, w: World, id: EnvelopeID)
    requires Inv(d, w) && !Holds(d.agent, id) && !Abandoned(d.agent, id)
    ensures d.agent.lastFailed == Some(id) ==> In(d, id, FailedDir)
    ensures d.agent.lastAccepted == Some(id) ==> In(d, id, Cur) && d.files[id].envelope.outcome == Accepted
    ensures d.agent.lastDelivered == Some(id) ==> In(d, id, Cur) && d.files[id].envelope.outcome == Delivered
  {
  }

  /** What the invariant says about the current compaction. */
  lemma CurrentIsSound(d: Disk, w: World)
    requires Inv(d, w)
    ensures CompactionSound(d.agent, w)
  {
  }

  lemma FileIsSound(d: Disk, w: World, id: EnvelopeID)
    requires Inv(d, w) && id in d.files
    ensures FileSound(id, d.files[id], d.agent, w)
  {
  }

  /** The current compaction is told when its end was witnessed. */
  lemma CompletionNoted(d: Disk, w: World, b: Agent)
    requires Inv(d, w) && d.agent.input.None? && d.agent.compaction.Some? && b.compaction.Some?
    requires b == d.agent.(compaction := b.compaction)
    requires b.compaction.value == d.agent.compaction.value.(completedAt := b.compaction.value.completedAt)
    ensures Inv(d.(agent := b), w)
    ensures Steady(d, d.(agent := b))
  {
    RecordSteady(d, b);
    PointersSaved(d, b);
    hide Steady, Counted, Pointed;
    RecordSaved(d, w, b, w);
  }

  /** The current compaction, if its note is queued and it has not failed: a request would replace it. */
  function Replacing(d: Disk): set<nat> {
    if d.agent.compaction.Some? && d.agent.compaction.value.status != CompactionFailed
       && In(d, ResumeNote(d.agent.compaction.value.id), New)
    then {d.agent.compaction.value.id} else {}
  }

  /** The history once compaction `c` was requested. */
  function RequestCounted(d: Disk, w: World, c: nat): World {
    w.(compactions := w.compactions + {c}, replaced := w.replaced + Replacing(d),
       stranded := w.stranded + set k <- Replacing(d) :: ResumeNote(k))
  }

  /** A compaction no earlier record knew is requested while none is pending. */
  lemma Requested(d: Disk, w: World, b: Agent)
    requires Inv(d, w) && SameReceipts(d.agent, b) && b.bands == d.agent.bands
    requires d.agent.input.None? && b.input.None? && b.compaction.Some?
    requires b.compaction.value.status == Queued && !b.compaction.value.resumeAdmitted
    requires b.compaction.value.id !in w.compactions
    requires !(b.compaction.value.resumeFrom.kind == GanglineSender && b.compaction.value.resumeFrom.name == "context-band")
    ensures Inv(d.(agent := b), RequestCounted(d, w, b.compaction.value.id))
    ensures Grows(w, RequestCounted(d, w, b.compaction.value.id))
    ensures Steady(d, d.(agent := b))
  {
    var c := b.compaction.value.id;
    var x := RequestCounted(d, w, c);
    FreshIsOut(d, w, c);
    RequestSteady(d, b);
    hide Filed;
    RequestCounts(d, w, c);
    hide Counted, Steady;
    PointersSaved(d, b);
    hide Pointed;
    RecordSaved(d, w, b, x);
  }

  lemma FreshIsOut(d: Disk, w: World, c: nat)
    requires Filed(d, w) && Counted(w) && c !in w.compactions
    ensures ResumeNote(c) !in d.files && w.links[ResumeNote(c)] == 0 && w.links[FailureNote(c)] == 0
    ensures w.admissions[c] == 0 && c !in w.dead
  {
  }

  lemma RequestSteady(d: Disk, b: Agent)
    requires SameReceipts(d.agent, b) && b.compaction.Some? && b.compaction.value.status == Queued
    requires d.agent.input.None? && b.input.None? && ResumeNote(b.compaction.value.id) !in d.files
    requires Pointed(d)
    ensures Steady(d, d.(agent := b))
    ensures forall id | Marooned(d.(agent := b), id) && !Marooned(d, id) :: id.compaction in Replacing(d)
    ensures forall c <- Replacing(d) :: Marooned(d.(agent := b), ResumeNote(c)) && !Marooned(d, ResumeNote(c))
  {
  }

  lemma RequestCounts(d: Disk, w: World, c: nat)
    requires Counted(w) && c !in w.compactions
    ensures Counted(RequestCounted(d, w, c)) && Grows(w, RequestCounted(d, w, c))
  {
  }

  lemma UnlinkedIsOut(d: Disk, w: World, c: nat)
    requires Filed(d, w) && w.links[ResumeNote(c)] == 0
    ensures ResumeNote(c) !in d.files
  {
  }

  /** A compaction still queued is taken back; nothing of it was published. */
  lemma RequestDropped(d: Disk, w: World, b: Agent)
    requires Inv(d, w) && SameReceipts(d.agent, b) && b.bands == d.agent.bands
    requires d.agent.input.None? && b.input.None? && b.compaction.None?
    requires d.agent.compaction.Some? && d.agent.compaction.value.status == Queued
    ensures Inv(d.(agent := b), w)
    ensures Steady(d, d.(agent := b))
  {
    UnlinkedIsOut(d, w, d.agent.compaction.value.id);
    RecordSteady(d, b);
    PointersSaved(d, b);
    hide Steady, Filed, Counted, Pointed;
    RecordSaved(d, w, b, w);
  }

  /** The current continuation is admitted, once, while its compaction has not failed. */
  lemma AdmissionSaved(d: Disk, w: World, b: Agent)
    requires Inv(d, w) && SameReceipts(d.agent, b) && b.bands == d.agent.bands
    requires d.agent.input.None? && b.input.None? && d.agent.compaction.Some? && b.compaction.Some?
    requires var c, n := d.agent.compaction.value, b.compaction.value;
             && n.id == c.id && n.resumeFrom == c.resumeFrom && !c.resumeAdmitted && n.resumeAdmitted
             && c.status != CompactionFailed && n.status != CompactionFailed && n.status != Queued
             && (c.continuation ==> n.continuation)
    ensures Inv(d.(agent := b), w.(admissions := w.admissions + multiset{b.compaction.value.id}))
    ensures Steady(d, d.(agent := b))
  {
    RecordSteady(d, b);
    PointersSaved(d, b);
    var x := w.(admissions := w.admissions + multiset{b.compaction.value.id});
    hide Steady, Filed, Pointed;
    RecordSaved(d, w, b, x);
  }
}
