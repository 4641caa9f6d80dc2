/** The process that holds an agent's lock: receipt filing, recovery, delivery and the
    continuation of a compaction. Every durable write goes through `Write`, whose argument type
    admits only states that keep the invariant, so a process that dies after any write leaves a
    disk from which the next owner can go on. */
module Delivery {
  import opened Records
  import opened AgentStep
  import opened DeliveryState
  import opened DeliverySteps
  import opened DeliverySpec
  import opened DeliveryTheorems
  import opened DeliveryDrains
  import opened DeliveryMeaning
  import opened DeliveryFields

  class Owner {
    /** What is on disk, and what happened outside. */
    var s: Durable
    /** The owner's own copy of the record. */
    var a: Agent
    /** Durable writes left before this process dies; `None` when it lives on. */
    var left: Option<nat>

    /** The owner's copy agrees with the saved record about the receipt awaiting removal. */
    ghost predicate Ready()
      reads this
    {
      a == s.disk.agent || (a.cleanup.None? && s.disk.agent.cleanup.None?)
    }

    /** The owner's copy is the saved record, and no receipt awaits removal. */
    ghost predicate Clean()
      reads this
    {
      a == s.disk.agent && a.cleanup.None?
    }

    constructor (agent: Agent)
      requires agent.input.None? && agent.compaction.None? && agent.cleanup.None? && agent.bands.pending == []
      requires agent.lastAccepted.None? && agent.lastDelivered.None? && agent.lastFailed.None?
      ensures Clean() && s == State(Disk(map[], agent), EMPTY_WORLD) && left.None?
    {
      s := State(Disk(map[], agent), EMPTY_WORLD);
      a := agent;
      left := None;
    }

    /** One durable write. A process out of writes is dead: nothing it does changes the disk. */
    method Write(next: Durable) returns (ok: bool)
      requires Grows(s.world, next.world) && Steady(s.disk, next.disk)
      modifies this`s, this`left
      ensures s == if ok then next else old(s)
      ensures ok <==> old(left) != Some(0)
      ensures left == Rest(old(left), 1)
    {
      if left == Some(0) {
        return false;
      }
      left := if left.Some? then Some(left.value - 1) else None;
      s := next;
      ok := true;
    }

    method Save() returns (ok: bool)
      requires Inv(s.disk.(agent := a), s.world) && Steady(s.disk, s.disk.(agent := a))
      modifies this`s, this`left
      ensures s == if ok then old(s).(disk := old(s).disk.(agent := a)) else old(s)
      ensures ok <==> old(left) != Some(0)
      ensures left == Rest(old(left), 1)
    {
      ok := Write(s.(disk := s.disk.(agent := a)));
    }

    method CleanResult() returns (ok: bool)
      requires Ready()
      modifies this`s, this`a, this`left
      ensures s.world == old(s).world
      ensures ok ==> a == old(a).(cleanup := None)
      ensures ok ==> s.disk == Cleaned(old(s).disk)
      ensures old(a).cleanup.None? ==> ok && left == old(left) && s == old(s)
      ensures old(left).None? ==> ok && left.None?
    {
      hide Inv, Steady;
      if a.cleanup.None? {
        return true;
      }
      var r := a.cleanup.value;
      CleanupRemoved(s.disk, s.world);
      CleanupCleared(s.disk, s.world);
      ok := Write(s.(disk := Remove(s.disk, r.id, r.directory)));
      if !ok { return; }
      a := a.(cleanup := None);
      ok := Save();
    }

    /** The continuation of a failed compaction that no owner found stranded. */
    ghost predicate Cancellable(id: EnvelopeID)
      reads this
    {
      && id.ResumeNote? && FailedCompaction(s.disk.agent, id.compaction) && s.disk.agent.input.None?
      && id !in s.world.stranded && s.disk.agent.lastAccepted != Some(id)
    }

    method FileResult(e: Envelope, outcome: Outcome, reason: string) returns (ok: bool)
      requires In(s.disk, e.id, New) && SameKind(e, s.disk.files[e.id].envelope) && outcome != NoOutcome
      requires if outcome == Cancelled then Cancellable(e.id) else Holds(s.disk.agent, e.id)
      modifies this`s, this`left
      ensures s.world == old(s).world && s.disk.agent == old(s).disk.agent
      ensures s.disk == Reached([old(s).disk, Put(old(s).disk, Closed(e, outcome, reason)),
                                 FiledAs(old(s).disk, e, outcome, reason)], old(left))
      ensures (ok <==> Lives(old(left), 2)) && left == Rest(old(left), 2)
      ensures ok ==> s.disk == FiledAs(old(s).disk, e, outcome, reason)
      ensures old(left).None? ==> ok && left.None?
    {
      hide Inv, Steady;
      CurrentIsSound(s.disk, s.world);
      var closed := Closed(e, outcome, reason);
      Rewritten(s.disk, s.world, closed);
      ok := Write(s.(disk := Put(s.disk, closed)));
      if !ok { return; }
      if Holds(s.disk.agent, e.id) {
        HeldMoved(s.disk, s.world, e.id, DirectoryOf(outcome));
      } else {
        CancelledFiled(s.disk, s.world, e.id);
      }
      ok := Write(s.(disk := Move(s.disk, e.id, DirectoryOf(outcome))));
    }

    method SaveReceipt(id: EnvelopeID, outcome: Outcome) returns (ok: bool)
      requires a == Forget(s.disk.agent, id) && a.cleanup.None? && s.disk.agent.cleanup.None?
      requires outcome != NoOutcome && In(s.disk, id, DirectoryOf(outcome)) && s.disk.files[id].envelope.outcome == outcome
      requires Holds(s.disk.agent, id) || a.input.None?
      modifies this`s, this`a, this`left
      ensures s.world == old(s).world
      ensures ok ==> Clean() && s.disk == Cleaned(old(s).disk.(agent := Receipted(old(a), outcome, id)))
      ensures old(left).None? ==> ok && left.None?
      ensures Receipt(old(a), outcome).None? ==>
        && s.disk == Reached([old(s).disk, old(s).disk.(agent := Receipted(old(a), outcome, id))], old(left))
        && (ok <==> Lives(old(left), 1)) && left == Rest(old(left), 1)
    {
      hide Inv, Steady;
      ReceiptSaved(s.disk, s.world, a, id, outcome);
      a := Receipted(a, outcome, id);
      ok := Save();
      if !ok { return; }
      ok := CleanResult();
    }

    method Settle(e: Envelope, outcome: Outcome, reason: string) returns (ok: bool)
      requires a == Forget(s.disk.agent, e.id) && Ready()
      requires In(s.disk, e.id, New) && SameKind(e, s.disk.files[e.id].envelope) && outcome != NoOutcome
      requires if outcome == Cancelled then Cancellable(e.id) && a == s.disk.agent else Holds(s.disk.agent, e.id)
      modifies this`s, this`a, this`left
      ensures s.world == old(s).world
      ensures ok ==> Clean() && s.disk == Settled(old(s).disk, e, outcome, reason)
      ensures old(left).None? ==> ok && left.None?
      // Where a crash leaves the disk when no other receipt has to go.
      ensures old(a).cleanup.None? && Receipt(old(a), outcome).None? ==>
        var filed := FiledAs(old(s).disk, e, outcome, reason);
        && s.disk == Reached([old(s).disk, Put(old(s).disk, Closed(e, outcome, reason)), filed,
                              filed.(agent := Receipted(old(a), outcome, e.id))], old(left))
        && (ok <==> Lives(old(left), 3)) && left == Rest(old(left), 3)
    {
      hide Inv, Steady, Cleaned, Receipted, FiledAs, Reached, Rest, Lives;
      CleanupSpares(s.disk, s.world, e.id);
      NothingToClean(s.disk);
      ghost var put, filed := Put(s.disk, Closed(e, outcome, reason)), FiledAs(s.disk, e, outcome, reason);
      ghost var named := filed.(agent := Receipted(a, outcome, e.id));
      JoinTraces([s.disk, put, filed], [filed, named], left);
      assert [s.disk, put, filed] + [filed, named][1..] == [s.disk, put, filed, named];
      ok := CleanResult();
      if !ok { return; }
      ok := FileResult(e, outcome, reason);
      if !ok { return; }
      FiledThere(Cleaned(old(s).disk), e, outcome, reason);
      ok := SaveReceipt(e.id, outcome);
    }

    /** A transition of the record, saved before the owner adopts it. */
    method Apply(at: Time, e: Event, outside: World) returns (ok: bool)
      requires Step(a, a.id, at, e).Stepped? ==>
        var n := s.disk.(agent := Step(a, a.id, at, e).agent); Inv(n, outside) && Steady(s.disk, n)
      requires Grows(s.world, outside)
      modifies this`s, this`a, this`left
      ensures ok ==> Step(old(a), old(a).id, at, e) == Stepped(a)
      ensures s == if ok then State(old(s).disk.(agent := a), outside) else old(s)
      ensures !ok ==> a == old(a)
      ensures ok <==> Step(old(a), old(a).id, at, e).Stepped? && old(left) != Some(0)
      ensures left == if Step(old(a), old(a).id, at, e).Stepped? then Rest(old(left), 1) else old(left)
    {
      hide Inv, Steady, Step;
      var r := Transition(a, a.id, at, e);
      if r.Rejected? {
        return false;
      }
      ok := Write(State(s.disk.(agent := r.agent), outside));
      if ok {
        a := r.agent;
      }
    }

    method SettleContextStamp(e: Envelope, outcome: Outcome) returns (ok: bool)
      requires Clean() && Holds(a, e.id)
      modifies this`s, this`a, this`left
      ensures s.world == old(s).world
      ensures ok ==> Clean() && s.disk == StampSettled(old(s).disk, e, outcome)
      ensures old(left).None? ==> ok && left.None?
    {
      hide Inv, Steady;
      if e.stamp.None? || outcome != Delivered {
        return true;
      }
      var notes, kept := a.bands.pending, [];
      for i := 0 to |notes|
        invariant a == old(a) && notes == a.bands.pending
        invariant kept == KeptNotes(notes[..i], e.stamp.value)
        invariant s.world == old(s).world
        invariant s.disk == WithoutNotes(old(s).disk, notes[..i], e.stamp.value, e.id)
        invariant s.disk.agent == a
        invariant forall j | 0 <= j < |kept| :: kept[j].id.BandNote? && kept[j].outcome == NoOutcome
        invariant old(left).None? ==> left.None?
      {
        assert notes[..i + 1][..i] == notes[..i];
        NotesAreBands(s.disk, s.world);
        if notes[i].id in e.stamp.value {
          if notes[i].id != e.id {
            Withdrawn(s.disk, s.world, notes[i].id);
            ok := Write(s.(disk := Remove(s.disk, notes[i].id, New)));
            if !ok { return; }
          }
        } else {
          kept := kept + [notes[i]];
        }
      }
      assert notes[..|notes|] == notes;
      a := a.(bands := a.bands.(pending := kept));
      CoreSaved(s.disk, s.world, a);
      ok := Save();
    }

    /** The receipt of a typed envelope, and the crossings its stamp carried. */
    method SettleReceipt(e: Envelope, outcome: Outcome, reason: string) returns (ok: bool)
      requires a == Forget(s.disk.agent, e.id) && Ready()
      requires In(s.disk, e.id, New) && SameKind(e, s.disk.files[e.id].envelope) && outcome != NoOutcome
      requires Holds(s.disk.agent, e.id) && outcome != Cancelled
      modifies this`s, this`a, this`left
      ensures s.world == old(s).world
      ensures ok ==> Clean() && s.disk == StampSettled(Settled(old(s).disk, e, outcome, reason), e, outcome)
      ensures ok ==> Holds(a, e.id) && a.compaction == old(a).compaction && SoleReceipt(a, outcome, e.id)
      ensures ok ==> In(s.disk, e.id, DirectoryOf(outcome)) && s.disk.files[e.id].envelope.outcome == outcome
      ensures old(left).None? ==> ok && left.None?
    {
      hide Inv, Steady;
      ok := Settle(e, outcome, reason);
      if !ok { return; }
      SettledNames(old(s).disk, s.world, e, outcome, reason);
      hide Settled;
      ok := SettleContextStamp(e, outcome);
      if !ok { return; }
      StampKeepsReceipt(Settled(old(s).disk, e, outcome, reason), e, outcome);
    }

    method FinishInput(at: Time, e: Envelope, outcome: Outcome, reason: string) returns (ok: bool)
      requires at != 0 && a == Forget(s.disk.agent, e.id) && Ready()
      requires In(s.disk, e.id, New) && SameKind(e, s.disk.files[e.id].envelope) && outcome != NoOutcome
      requires Holds(s.disk.agent, e.id) && outcome != Cancelled
      modifies this`s, this`a, this`left
      ensures s.world == old(s).world
      ensures ok ==> Clean() && a.input.None? && s.disk == Finished(old(s).disk, at, e, outcome, reason)
      ensures ok ==> a.compaction == old(a).compaction
      ensures old(left).None? ==> ok && left.None?
    {
      hide Inv, Steady, Settled, StampSettled, Step;
      ok := SettleReceipt(e, outcome, reason);
      if !ok { return; }
      InputDoneEnds(a, at, e.id, outcome, reason);
      IntentSettled(s.disk, s.world, InputDone(a, at, e.id, outcome, reason), e.id);
      ok := Apply(at, InputFinished(EnvelopeInput(e.id), OutcomeName(outcome), reason), s.world);
    }

    /** The intent the previous owner left is settled without typing anything. */
    method RecoverInput(at: Time) returns (ok: bool)
      requires at != 0 && Clean()
      modifies this`s, this`a, this`left
      ensures s.world == old(s).world
      ensures ok ==> Clean() && a.input.None?
      ensures ok ==> s.disk == InputRecovered(old(s).disk, at)
      ensures old(a).input.None? ==> ok && s == old(s) && a == old(a)
      ensures old(left).None? ==> ok && left.None?
    {
      hide Inv, Steady, Finished;
      if a.input.None? {
        return true;
      }
      IntentPhase(s.disk, s.world);
      match a.input.value
      case CompactionInput(c) =>
        CompactionMoved(s.disk, s.world, Step(a, a.id, at, CompactionUnconfirmed(c, OWNER_EXITED, false)).agent);
        ok := Apply(at, CompactionUnconfirmed(c, OWNER_EXITED, false), s.world);
      case RecoveryInput(c) =>
        CompactionMoved(s.disk, s.world, Step(a, a.id, at, CompactionUnconfirmed(c, RECOVERY_EXITED, true)).agent);
        ok := Apply(at, CompactionUnconfirmed(c, RECOVERY_EXITED, true), s.world);
      case InterruptInput(_) =>
        a := a.(input := None, activity := Unknown, evidence := OWNER_EXITED);
        InterruptDropped(s.disk, s.world, a);
        ok := Save();
      case EnvelopeInput(id) =>
        ok := RecoverEnvelope(at, id);
    }

    method RecoverEnvelope(at: Time, id: EnvelopeID) returns (ok: bool)
      requires at != 0 && Clean() && Holds(a, id) && id in s.disk.files
      modifies this`s, this`a, this`left
      ensures s.world == old(s).world
      ensures ok ==> Clean() && a.input.None? && s.disk == Recovered(old(s).disk, at, id)
      ensures old(left).None? ==> ok && left.None?
    {
      hide Inv, Steady, Finished;
      var e := s.disk.files[id].envelope;
      FileIsSound(s.disk, s.world, id);
      if s.disk.files[id].dir != New {
        HeldMoved(s.disk, s.world, id, New);
        ok := Write(s.(disk := Move(s.disk, id, New)));
        if !ok { return; }
      } else {
        assert Move(s.disk, id, New) == s.disk;
      }
      a := Forget(a, id);
      if e.outcome == Accepted {
        ok := FinishInput(at, e, Accepted, e.reason);
      } else {
        ok := FinishInput(at, e, Unverified, OWNER_EXITED);
      }
    }

    /** A retained receipt is taken back into `new` under a fresh intent. */
    method ReopenReceipt(at: Time, id: EnvelopeID, dir: Directory) returns (ok: bool)
      requires at != 0 && Clean() && a.input.None? && In(s.disk, id, dir)
      requires (dir == FailedDir && a.lastFailed == Some(id)) || (dir == Cur && a.lastAccepted == Some(id))
      modifies this`s, this`a, this`left
      ensures s.world == old(s).world
      ensures ok ==> Clean() && s.disk == Reopened(old(s).disk, at, id)
      ensures old(left).None? ==> ok && left.None?
    {
      hide Inv, Steady;
      FileIsSound(s.disk, s.world, id);
      ReceiptsDistinct(s.disk, s.world);
      IntentSaved(s.disk, s.world, InputBegun(a, at, EnvelopeInput(id)));
      ok := Apply(at, InputStarted(EnvelopeInput(id)), s.world);
      if !ok { return; }
      HeldMoved(s.disk, s.world, id, New);
      ok := Write(s.(disk := Move(s.disk, id, New)));
      if !ok { return; }
      a := if dir == Cur then a.(lastAccepted := None) else a.(lastFailed := None);
      assert a == Forget(s.disk.agent, id);
      Forgotten(s.disk, s.world, id);
      ok := Save();
    }

    /** A late hook can prove a retained receipt; nothing is typed. A record that names a receipt
        the inbox does not hold makes every reconciliation fail. */
    method ReconcileDelivery(at: Time, hook: Option<Hook>) returns (ok: bool, missing: bool)
      requires at != 0 && Clean()
      modifies this`s, this`a, this`left
      ensures s.world == old(s).world
      ensures missing <==> LateProof(old(s).disk, hook).ReadError?
      ensures LateProof(old(s).disk, hook).Proof? || (s == old(s) && a == old(a) && left == old(left) && (ok <==> !missing))
      ensures ok ==> Clean() && a.input == old(a).input && a.compaction == old(a).compaction
      ensures (ok || old(left).None?) ==> s.disk == LateDone(old(s).disk, at, hook)
      ensures old(left).None? ==> left.None? && (ok <==> !missing)
      // In the hook's own terms: only a prompt it reported proves a receipt, the failed one first.
      ensures hook.None? || (forall id | old(a).lastFailed == Some(id) || old(a).lastAccepted == Some(id) :: id !in hook.value.proves) ==>
        s == old(s) && a == old(a)
      ensures s != old(s) ==>
        && hook.Some?
        && exists id ::
             && (old(a).lastFailed == Some(id) || old(a).lastAccepted == Some(id))
             && id in old(s).disk.files && id in hook.value.proves && old(s).disk.files[id].envelope.createdAt <= hook.value.at
             && old(s).disk.files[id].envelope.outcome in {Unverified, Accepted}
             && (ok || old(left).None? ==> ProvedDelivered(old(s).disk, s.disk, id))
      ensures forall id | old(left).None? && hook.Some? && old(a).input.None? && old(a).lastFailed == Some(id)
                          && In(old(s).disk, id, FailedDir) && id in hook.value.proves
                          && old(s).disk.files[id].envelope.createdAt <= hook.value.at
                          && old(s).disk.files[id].envelope.outcome in {Unverified, Accepted} ::
        ok && ProvedDelivered(old(s).disk, s.disk, id)
      ensures forall id | old(left).None? && hook.Some? && old(a).input.None? && old(a).lastAccepted == Some(id)
                          && In(old(s).disk, id, Cur) && id in hook.value.proves
                          && old(s).disk.files[id].envelope.createdAt <= hook.value.at
                          && old(s).disk.files[id].envelope.outcome in {Unverified, Accepted}
                          && (old(a).lastFailed.Some? ==>
                                && In(old(s).disk, old(a).lastFailed.value, FailedDir)
                                && (old(a).lastFailed.value !in hook.value.proves
                                    || old(s).disk.files[old(a).lastFailed.value].envelope.createdAt > hook.value.at
                                    || old(s).disk.files[old(a).lastFailed.value].envelope.outcome !in {Unverified, Accepted})) ::
        ok && ProvedDelivered(old(s).disk, s.disk, id)
    {
      hide Inv, Steady, Finished, ProvedDelivered, Confirmed;
      if a.input.None? {
        LateMeans(s, at, hook);
      }
      if (a.lastFailed.None? && a.lastAccepted.None?) || a.input.Some? || hook.None? {
        return true, false;
      }
      var receipts := [(a.lastFailed, FailedDir), (a.lastAccepted, Cur)];
      for i := 0 to 2
        invariant s == old(s) && a == old(a) && left == old(left)
        invariant i > 0 && a.lastFailed.Some? ==>
          In(s.disk, a.lastFailed.value, FailedDir) && !Proves(hook.value, s.disk.files[a.lastFailed.value].envelope)
        invariant i > 1 && a.lastAccepted.Some? ==>
          In(s.disk, a.lastAccepted.value, Cur) && !Proves(hook.value, s.disk.files[a.lastAccepted.value].envelope)
      {
        var (receipt, dir) := receipts[i];
        if receipt.None? {
          continue;
        }
        var id := receipt.value;
        if !In(s.disk, id, dir) {
          return false, true;
        }
        var e := s.disk.files[id].envelope;
        FileIsSound(s.disk, s.world, id);
        if !Proves(hook.value, e) {
          continue;
        }
        ok := Confirm(at, id, dir);
        return ok, false;
      }
      return true, false;
    }

    method Confirm(at: Time, id: EnvelopeID, dir: Directory) returns (ok: bool)
      requires at != 0 && Clean() && a.input.None? && In(s.disk, id, dir)
      requires (dir == FailedDir && a.lastFailed == Some(id)) || (dir == Cur && a.lastAccepted == Some(id))
      modifies this`s, this`a, this`left
      ensures s.world == old(s).world
      ensures ok ==> Clean() && a.input.None? && s.disk == Confirmed(old(s).disk, at, id)
      ensures ok ==> a.compaction == old(a).compaction
      ensures old(left).None? ==> ok && left.None?
    {
      hide Inv, Steady, Finished;
      var e := s.disk.files[id].envelope;
      FileIsSound(s.disk, s.world, id);
      ok := ReopenReceipt(at, id, dir);
      if !ok { return; }
      ok := FinishInput(at, e, Delivered, "");
    }

    /** A filed continuation of a failed compaction goes back into `new`, and the record forgets it. */
    method TakeBack(id: EnvelopeID) returns (ok: bool)
      requires Clean() && a.input.None? && id in s.disk.files && s.disk.files[id].dir != New
      requires id.ResumeNote? && FailedCompaction(a, id.compaction) && s.disk.files[id].envelope.outcome != Delivered
      modifies this`s, this`a, this`left
      ensures s.world == old(s).world
      ensures ok ==> Clean() && s.disk == Move(old(s).disk, id, New).(agent := Forget(old(a), id))
      ensures old(left).None? ==> ok && left.None?
      ensures s.disk == Reached([old(s).disk, Move(old(s).disk, id, New), Move(old(s).disk, id, New).(agent := Forget(old(a), id))], old(left))
      ensures (ok <==> Lives(old(left), 2)) && left == Rest(old(left), 2)
    {
      hide Inv, Steady;
      UndeliveredIsUnnamed(s.disk, s.world, id);
      AbandonedMovedBack(s.disk, s.world, id);
      ok := Write(s.(disk := Move(s.disk, id, New)));
      if !ok { return; }
      a := a.(lastAccepted := if a.lastAccepted == Some(id) then None else a.lastAccepted,
              lastFailed := if a.lastFailed == Some(id) then None else a.lastFailed);
      Forgotten(s.disk, s.world, id);
      assert a == Forget(s.disk.agent, id);
      ok := Save();
    }

    /** The continuation of a failed compaction is filed as cancelled; a note already delivered
        is refused. */
    method CancelPendingResume(reason: string) returns (ok: bool)
      requires Clean() && a.input.None? && a.compaction.Some? && a.compaction.value.status == CompactionFailed
      requires var id := ResumeNote(a.compaction.value.id);
               && id !in s.world.stranded
               && (In(s.disk, id, New) ==> a.lastFailed != Some(id) && a.lastAccepted != Some(id))
      modifies this`s, this`a, this`left
      ensures s.world == old(s).world
      ensures ok ==> Clean() && a.input.None? && a.compaction == old(a).compaction && a.bands == old(a).bands
      ensures var trace := CancelTrace(old(s).disk, old(a).compaction.value.id, reason);
              && s.disk == Reached(trace, old(left)) && left == Rest(old(left), |trace| - 1) && (old(left).None? ==> left.None?)
              && (ok <==> !NoteDelivered(old(s).disk) && Lives(old(left), |trace| - 1))
    {
      hide Inv, Steady, Settled, Reached, Rest, Lives, FilingTrace;
      var id := ResumeNote(a.compaction.value.id);
      LivesOn(s.disk, left);
      if id !in s.disk.files {
        return true;
      }
      FileIsSound(s.disk, s.world, id);
      var e, dir := s.disk.files[id].envelope, s.disk.files[id].dir;
      if e.outcome == Delivered {
        return false;
      }
      UndeliveredIsUnnamed(s.disk, s.world, id);
      if dir != New {
        ghost var back := Move(s.disk, id, New).(agent := Forget(a, id));
        JoinTraces([s.disk, Move(s.disk, id, New), back], FilingTrace(back, e, reason), left);
        ok := TakeBack(id);
        if !ok { return; }
      } else {
        JoinTraces([s.disk], FilingTrace(s.disk, e, reason), left);
      }
      ok := FileCancelled(e, reason);
    }

    /** The note is filed as cancelled, and named when no other failure is. */
    method FileCancelled(e: Envelope, reason: string) returns (ok: bool)
      requires Clean() && Cancellable(e.id) && In(s.disk, e.id, New) && s.disk.files[e.id].envelope == e
      requires a.lastFailed != Some(e.id) && Forget(a, e.id) == a
      modifies this`s, this`a, this`left
      ensures s.world == old(s).world
      ensures ok ==> Clean() && a.input.None? && a.compaction == old(a).compaction && a.bands == old(a).bands
      ensures old(left).None? ==> left.None?
      ensures var trace := FilingTrace(old(s).disk, e, reason);
              && s.disk == Reached(trace, old(left)) && left == Rest(old(left), |trace| - 1)
              && (ok <==> Lives(old(left), |trace| - 1))
    {
      hide Inv, Steady, Settled, Reached, Rest, Lives, FiledAs;
      ghost var filed := FiledAs(s.disk, e, Cancelled, reason);
      ghost var unnamed := [s.disk, Put(s.disk, Closed(e, Cancelled, reason)), filed];
      assert unnamed + [filed.(agent := Receipted(a, Cancelled, e.id))] ==
             [s.disk, Put(s.disk, Closed(e, Cancelled, reason)), filed, filed.(agent := Receipted(a, Cancelled, e.id))];
      if a.lastFailed.Some? {
        ok := FileResult(e, Cancelled, reason);
      } else {
        SettleKeeps(s.disk, s.world, e, Cancelled, reason);
        ok := Settle(e, Cancelled, reason);
      }
    }

    /** An inbox link of an envelope that no directory holds; one already published is left. */
    method PublishOnce(e: Envelope) returns (ok: bool)
      requires e.id !in s.disk.files ==>
        && (e.id.BandNote? || s.world.links[e.id] == 0)
        && (e.id.ResumeNote? ==>
              && Current(s.disk.agent, e.id.compaction) && s.disk.agent.compaction.value.status != Queued
              && s.disk.agent.compaction.value.status != CompactionFailed)
        && (e.id.FailureNote? ==> FailedCompaction(s.disk.agent, e.id.compaction))
      requires e.id.ResumeNote? ==> e.purpose == Resume && e.notBefore == 0 && e.notAfter == 0
      requires (IsBandNotice(e) ==> e.id.BandNote?) && e.outcome == NoOutcome
      modifies this`s, this`left
      ensures Grows(old(s).world, s.world)
      ensures s == if ok then Queue(old(s), e) else old(s)
      ensures ok <==> e.id in old(s).disk.files || old(left) != Some(0)
      ensures left == if e.id in old(s).disk.files then old(left) else Rest(old(left), 1)
    {
      hide Inv, Steady;
      if e.id in s.disk.files {
        return true;
      }
      Linked(s.disk, s.world, e);
      ok := Write(Queue(s, e));
    }

    /** A failed compaction is recorded, its continuation cancelled and one notice queued; a
        continuation already delivered stops it after the record. */
    method FailCompaction(at: Time, reason: string) returns (ok: bool)
      requires at != 0 && Clean() && (a.input.Some? ==> !a.input.value.EnvelopeInput?)
      requires a.compaction.Some? && a.compaction.value.status != CompactionFailed
      modifies this`s, this`a, this`left
      ensures Grows(old(s).world, s.world)
      ensures s == Reached(FailTrace(old(s), at, reason), old(left))
      ensures ok <==> !NoteDelivered(old(s).disk) && Lives(old(left), |FailTrace(old(s), at, reason)| - 1)
      ensures (ok || old(left).None?) ==> Done(s, ok) == LostDone(old(s), at, reason)
      ensures ok ==> Clean() && a.input.None? && a.bands == old(a).bands && FailedCompaction(a, old(a).compaction.value.id)
      ensures s.world.typed == old(s).world.typed && s.world.admissions == old(s).world.admissions
      ensures old(left).None? ==> left.None?
    {
      hide Inv, Steady, ResumeCancelled, CancelTrace, FailTrace, FailureOf, Lost, Reached, Rest, Lives;
      var c := a.compaction.value.id;
      CurrentIsSound(s.disk, s.world);
      UnlinkedIsAbsent(s.disk, s.world, FailureNote(c));
      ReceiptsResolve(s.disk, s.world, ResumeNote(c));
      CurrentIsAfloat(s.disk, s.world);
      FailTraceEnds(s, at, reason);
      FailTraceParts(s, at, reason, left);
      ok := RecordFailure(at, reason);
      if !ok { return; }
      var notice := FailureEnvelope(a, at, reason);
      ok := CancelPendingResume(reason);
      if !ok { return; }
      UnlinkedIsAbsent(s.disk, s.world, FailureNote(c));
      ok := PublishOnce(notice);
    }

    method RecordFailure(at: Time, reason: string) returns (ok: bool)
      requires at != 0 && Clean() && (a.input.Some? ==> !a.input.value.EnvelopeInput?)
      requires a.compaction.Some? && a.compaction.value.status != CompactionFailed
      modifies this`s, this`a, this`left
      ensures Grows(old(s).world, s.world)
      ensures s == if ok then State(old(s).disk.(agent := a), old(s).world.(dead := old(s).world.dead + {old(a).compaction.value.id})) else old(s)
      ensures ok ==> Clean() && a == FailureOf(old(s).disk, at, reason) && a.input.None? && a.bands == old(a).bands
      ensures ok ==> FailedCompaction(a, old(a).compaction.value.id) && SameReceipts(old(a), a)
      ensures (ok <==> old(left) != Some(0)) && left == Rest(old(left), 1) && (old(left).None? ==> left.None?)
    {
      hide Inv, Steady;
      var c := a.compaction.value.id;
      CompactionLost(s.disk, s.world, FailureOf(s.disk, at, reason));
      ok := Apply(at, CompactionHasFailed(c, reason), s.world.(dead := s.world.dead + {c}));
    }

    /** A compaction whose end was proved is completed; its continuation must then be queued and
        untouched, or the compaction fails. */
    method ContinueCompaction(at: Time) returns (ok: bool)
      requires at != 0 && Clean() && a.input.None?
      modifies this`s, this`a, this`left
      ensures Grows(old(s).world, s.world)
      ensures ok ==> Clean() && a.input.None? && a.bands == old(a).bands && s == Continued(old(s), at)
      ensures s.world.typed == old(s).world.typed
      ensures old(left).None? ==> ok && left.None?
      // In the record's own terms: when it does nothing, and whether the compaction completes or fails.
      ensures !Ended(old(a)) ==> ok && s == old(s) && a == old(a) && left == old(left)
      ensures (ok || old(left).None?) && Ended(old(a)) ==>
        && Current(s.disk.agent, old(a).compaction.value.id)
        && s.disk.agent.compaction.value.status == if InOrder(old(s).disk) then Completed else CompactionFailed
    {
      hide Inv, Steady, Lost, Step, FailTrace;
      ContinuedFields(s, at);
      if a.compaction.None? {
        return true;
      }
      var c := a.compaction.value;
      if (c.status == Submitted || c.status == CompactionUnverified) && c.completedAt > c.startedAt {
        CompletionAllowed(s.disk, s.world);
        ok := Apply(c.completedAt, CompactionCompleted(c.id), s.world);
        if !ok { return; }
        c := a.compaction.value;
      }
      if c.status != Completed {
        return true;
      }
      var id := ResumeNote(c.id);
      var present := In(s.disk, id, New);
      if c.continuation && !present {
        return true;
      }
      if present && CompletedResume(a, s.disk.files[id].envelope) {
        return true;
      }
      WithheldIsUndelivered(s.disk, s.world);
      ok := FailCompaction(at, NOT_ENTERED);
    }

    method ListNew() returns (pending: seq<Envelope>)
      ensures Listing(s.disk, pending) && pending == Mail(s.disk)
    {
      pending := [];
      var rest := set id | id in s.disk.files && s.disk.files[id].dir == New;
      while rest != {}
        invariant forall id <- rest :: In(s.disk, id, New)
        invariant forall e <- pending :: e.id !in rest && In(s.disk, e.id, New) && s.disk.files[e.id].envelope == e
        invariant forall id | In(s.disk, id, New) :: id in rest || s.disk.files[id].envelope in pending
        invariant Ordered(pending)
        decreases rest
      {
        hide Inv, Steady, Ordered, Mail;
        var id :| id in rest;
        FileIsSound(s.disk, s.world, id);
        Inserted(pending, s.disk.files[id].envelope);
        pending := Insert(pending, s.disk.files[id].envelope);
        rest := rest - {id};
      }
      ListingIsMail(s.disk, pending);
    }

    /** The owner's copy is ahead of the saved record in what a context reading may change. */
    ghost predicate Ahead()
      reads this
    {
      && SameReceipts(s.disk.agent, a) && a.cleanup.None? && a.input.None? && s.disk.agent.input.None?
      && a.compaction == s.disk.agent.compaction && BandsSound(a)
    }

    method DiscardQueuedNotes() returns (ok: bool)
      requires Clean() && a.input.None?
      modifies this`s, this`left
      ensures s.world == old(s).world && s.disk.agent == old(s).disk.agent
      ensures ok ==> s.disk == ResetFiles(old(s).disk)
      ensures old(left).None? ==> ok && left.None?
    {
      hide Inv, Steady, Listing, Discarded, ResetFiles, Mail;
      var queued := ListNew();
      for i := 0 to |queued|
        invariant s.world == old(s).world && s.disk.agent == old(s).disk.agent
        invariant s.disk == Reset(old(s).disk, queued[..i])
        invariant old(left).None? ==> left.None?
      {
        assert queued[..i + 1][..i] == queued[..i];
        ok := DiscardOne(queued[i]);
        if !ok { return; }
      }
      assert queued[..|queued|] == queued;
      ResetMeans(old(s).disk, s.world, queued);
      ok := true;
    }

    method DiscardOne(e: Envelope) returns (ok: bool)
      requires s.disk.agent.input.None?
      modifies this`s, this`left
      ensures s.world == old(s).world && s.disk.agent == old(s).disk.agent
      ensures ok ==> s.disk == Discarded(old(s).disk, e)
      ensures old(left).None? ==> ok && left.None?
    {
      hide Inv, Steady;
      if !In(s.disk, e.id, New) || s.disk.files[e.id].envelope != e {
        return true;
      }
      FileIsSound(s.disk, s.world, e.id);
      if IsBandNotice(e) {
        Withdrawn(s.disk, s.world, e.id);
        ok := Write(s.(disk := Remove(s.disk, e.id, New)));
      } else if e.stamp.Some? && e.stamp.value != {} && !e.pasteOnly {
        Rewritten(s.disk, s.world, e.(stamp := None));
        ok := Write(s.(disk := Put(s.disk, e.(stamp := None))));
      } else {
        ok := true;
      }
    }

    /** After a context reset the queued notes are withdrawn first; then every pending note that
        waited long enough and has no file is published. */
    method PublishContextNotes(now: Time) returns (ok: bool)
      requires Ahead() && (a == s.disk.agent || a.bands.discardQueued)
      modifies this`s, this`a, this`left
      ensures Grows(old(s).world, s.world)
      ensures s.world.typed == old(s).world.typed
      ensures ok ==> Clean() && a == old(a).(bands := old(a).bands.(discardQueued := false))
      ensures ok ==> s == NotesSettled(old(s).(disk := old(s).disk.(agent := old(a))), now)
      ensures old(left).None? ==> ok && left.None?
    {
      hide Inv, Steady, ResetFiles;
      if a.bands.discardQueued {
        CoreSaved(s.disk, s.world, a);
        ok := Save();
        if !ok { return; }
        ok := DiscardQueuedNotes();
        if !ok { return; }
        ResetOfAgent(old(s).disk, old(a));
        a := a.(bands := a.bands.(discardQueued := false));
        CoreSaved(s.disk, s.world, a);
        ok := Save();
        if !ok { return; }
      }
      ghost var from := s;
      var notes := a.bands.pending;
      for i := 0 to |notes|
        invariant Clean() && a == old(a).(bands := old(a).bands.(discardQueued := false))
        invariant s == NotesQueued(from, now, notes[..i]) && Grows(old(s).world, s.world)
        invariant s.world.typed == old(s).world.typed
        invariant old(left).None? ==> left.None?
      {
        assert notes[..i + 1][..i] == notes[..i];
        NotesAreBands(s.disk, s.world);
        if now - notes[i].createdAt >= WATCHDOG_TIMEOUT {
          ok := PublishOnce(notes[i]);
          if !ok { return; }
        }
      }
      assert notes[..|notes|] == notes;
      ok := true;
    }

    /** A witnessed end of a compaction: it completes the current one if that was submitted
        before, forgets the crossings of the old context, and lets the continuation go on. */
    method ReconcileCompactionWitness(now: Time, ended: Option<Time>) returns (ok: bool)
      requires now != 0 && Clean() && a.input.None?
      modifies this`s, this`a, this`left
      ensures Grows(old(s).world, s.world)
      ensures s.world.typed == old(s).world.typed
      ensures ok ==> Clean() && a.input.None? && s == Witnessed(old(s), now, ended)
      ensures old(left).None? ==> ok && left.None?
    {
      hide Inv, Steady, Continued, NotesSettled, Grows;
      GrowsSame(s.world);
      if ended.None? || ended.value <= a.confirmedCompactedAt {
        return true;
      }
      var at := ended.value;
      if a.compaction.Some? && (a.compaction.value.status == Submitted || a.compaction.value.status == CompactionUnverified)
         && at > a.compaction.value.startedAt {
        a := a.(compaction := Some(a.compaction.value.(completedAt := at)));
        CompletionNoted(s.disk, s.world, a);
        ok := Save();
        if !ok { return; }
      }
      a := a.(bands := a.bands.(pending := [], discardQueued := true), confirmedCompactedAt := at);
      ok := PublishContextNotes(now);
      if !ok { return; }
      ghost var before := s.world;
      ok := ContinueCompaction(now);
      GrowsOn(old(s).world, before, s.world);
    }

    method ExpireCompaction(at: Time) returns (ok: bool)
      requires at != 0 && Clean() && a.input.None?
      modifies this`s, this`a, this`left
      ensures s.world == old(s).world && s.disk.files == old(s).disk.files
      ensures ok ==> Clean() && a.input.None? && SameReceipts(old(a), a) && a.bands == old(a).bands
      ensures ok ==> !Overdue(a, at)
      ensures ok ==> a == if Overdue(old(a), at) then Applied(old(a), at, CompactionUnconfirmed(old(a).compaction.value.id, UNCONFIRMED, false)) else old(a)
      ensures old(left).None? ==> ok && left.None?
    {
      hide Inv, Steady;
      if a.compaction.None? || a.compaction.value.status != Submitted || at < a.compaction.value.deadline {
        return true;
      }
      var e := CompactionUnconfirmed(a.compaction.value.id, UNCONFIRMED, false);
      CompactionMoved(s.disk, s.world, Step(a, a.id, at, e).agent);
      ok := Apply(at, e, s.world);
    }

    /** Deadlines are settled one by one; a second check at the same time finds none. */
    method CheckDeadlinesLocked(at: Time) returns (ok: bool)
      requires at != 0 && Clean() && a.input.None?
      modifies this`s, this`a, this`left
      ensures s.world == old(s).world && s.disk.files == old(s).disk.files
      ensures ok ==> Clean() && a.input.None? && SameReceipts(old(a), a) && a.bands == old(a).bands
      ensures ok ==> a.status == Dropping || CheckDeadlines(a, at) == a
      ensures ok ==> a == DeadlinesDone(old(a), at)
      ensures old(left).None? ==> ok && left.None?
    {
      hide Inv, Steady, CheckDeadlines, Step;
      ok := ExpireCompaction(at);
      if !ok { return; }
      DeadlineCheckShows(a, at);
      var next := Step(a, a.id, at, DeadlineChecked);
      if next.agent.status == a.status && next.agent.activity == a.activity && next.agent.evidence == a.evidence {
        return true;
      }
      NotesAreBands(s.disk, s.world);
      CoreSaved(s.disk, s.world, next.agent);
      ok := Apply(at, DeadlineChecked, s.world);
    }

    /** The lock is taken: the record is read, and the resume notes that are marooned by now are
        known. */
    method TakeLock()
      modifies this`s, this`a
      ensures s == Taken(old(s)) && a == s.disk.agent && Grows(old(s).world, s.world)
    {
      hide Inv, Steady;
      LockTaken(s.disk, s.world);
      s := Taken(s);
      a := s.disk.agent;
    }

    /** A new owner takes the lock: it reads the record, finishes what its predecessor left and
        settles what was proved since. It never presses the submit key. A living one fails only when
        the record it is left with names a receipt the inbox does not hold. */
    method Acquire(at: Time, hook: Option<Hook>, completion: Option<Time>) returns (ok: bool)
      requires at != 0
      modifies this`s, this`a, this`left
      ensures Grows(old(s).world, s.world) && Grows(Taken(old(s)).world, s.world)
      ensures s.world.typed == old(s).world.typed
      ensures ok ==> Clean() && a.input.None? && s == Acquired(old(s), at, hook, completion)
      ensures old(left).None? ==>
        var recovered := InputRecovered(Cleaned(old(s).disk), at);
        && left.None? && (ok <==> !(hook.Some? && Dangling(recovered, hook.value)))
        && (!ok ==> s == Taken(old(s)).(disk := recovered))
      ensures hook.Some? && Dangling(InputRecovered(Cleaned(old(s).disk), at), hook.value) ==> !ok
      // What it leaves: no deadline passed, no end unused, every crossing that waited published.
      ensures ok ==> (a.status == Dropping || Looked(s.disk, at)) && NotesOut(s.disk, at) && !a.bands.discardQueued
      ensures ok && completion.Some? ==> a.confirmedCompactedAt >= completion.value
    {
      hide Inv, Steady, Grows, UpToDate, LateDone, InputRecovered, Cleaned, Dangling, Looked, NotesOut;
      TakeLock();
      GrowsSame(s.world);
      ok := CleanResult();
      NothingToClean(old(s).disk);
      if !ok { return; }
      ok := RecoverInput(at);
      if !ok { return; }
      ReadErrorIff(s.disk, s.world, hook);
      var missing;
      ok, missing := ReconcileDelivery(at, hook);
      if !ok { return; }
      ghost var before := s.world;
      ok := BringUpToDate(at, completion);
      GrowsOn(old(s).world, before, s.world);
      GrowsOn(Taken(old(s)).world, before, s.world);
    }

    /** What was witnessed and what waits is settled, the compaction goes on, deadlines are checked. */
    method BringUpToDate(at: Time, completion: Option<Time>) returns (ok: bool)
      requires at != 0 && Clean() && a.input.None?
      modifies this`s, this`a, this`left
      ensures Grows(old(s).world, s.world) && s.world.typed == old(s).world.typed
      ensures ok ==> Clean() && a.input.None? && s == UpToDate(old(s), at, completion)
      ensures old(left).None? ==> ok && left.None?
      ensures ok ==> (a.status == Dropping || Looked(s.disk, at)) && NotesOut(s.disk, at) && !a.bands.discardQueued
      ensures ok && completion.Some? ==> a.confirmedCompactedAt >= completion.value
    {
      hide Inv, Steady, Grows, NotesSettled, Continued, Witnessed, DeadlinesDone, Looked, NotesOut, Ended, InOrder;
      WitnessStays(s, at, completion);
      ok := ReconcileCompactionWitness(at, completion);
      if !ok { return; }
      NotesAreBands(s.disk, s.world);
      ghost var before := s.world;
      NotesGoOut(s, at);
      ok := PublishContextNotes(at);
      GrowsOn(old(s).world, before, s.world);
      if !ok { return; }
      before := s.world;
      ContinuedLeaves(s, at);
      ok := ContinueCompaction(at);
      GrowsOn(old(s).world, before, s.world);
      if !ok { return; }
      ghost var found := s.disk;
      DeadlinesKeepName(s.disk.agent, at);
      if s.disk.agent.status != Dropping {
        DeadlinesLook(s, at);
      }
      ok := CheckDeadlinesLocked(at);
      if !ok { return; }
      NotesOutMoves(found, s.disk, at);
      StaysDropping(found.agent, at);
    }

    /** The submit key. It is no write, but a process can die before it as before any write. */
    method PressSubmit(id: EnvelopeID) returns (ok: bool)
      requires Holds(s.disk.agent, id) && s.world.typed[id] < s.world.links[id]
      modifies this`s, this`left
      ensures s == if ok then State(old(s).disk, Pressed(old(s).world, id)) else old(s)
      ensures old(left).None? ==> ok && left.None?
    {
      HeldIsAfloat(s.disk, s.world, id);
      hide Inv, Steady;
      Typed(s.disk, s.world, id);
      ok := Write(State(s.disk, Pressed(s.world, id)));
    }

    /** The stamp is saved with the queued envelope before anything is typed. */
    method StampEnvelope(e: Envelope, fit: nat) returns (ok: bool, stamped: Envelope)
      requires Clean() && a.input.None? && In(s.disk, e.id, New) && s.disk.files[e.id].envelope == e
      modifies this`s, this`left
      ensures stamped == Stamp(e, a.bands.pending, fit)
      ensures s.world == old(s).world && s.disk.agent == old(s).disk.agent
      ensures ok ==> s.disk == Put(old(s).disk, stamped)
      ensures old(left).None? ==> ok && left.None?
    {
      hide Inv, Steady;
      stamped := Stamp(e, a.bands.pending, fit);
      if e.stamp.Some? {
        assert Put(s.disk, stamped) == s.disk;
        return true, stamped;
      }
      FileIsSound(s.disk, s.world, e.id);
      Rewritten(s.disk, s.world, stamped);
      ok := Write(s.(disk := Put(s.disk, stamped)));
      if !ok { return; }
      NotesAreBands(s.disk, s.world);
      CoreSaved(s.disk, s.world, a);
      ok := Save();
    }

    /** The intent is saved and the envelope typed, at most once; its result is filed. */
    method TypeInput(at: Time, e: Envelope, v: Verdict) returns (ok: bool)
      requires at != 0 && Clean() && Holds(a, e.id) && Forget(a, e.id) == a
      requires In(s.disk, e.id, New) && s.disk.files[e.id].envelope == e
      requires s.world.typed[e.id] < s.world.links[e.id]
      requires v.Sent? ==> v.outcome == Delivered || v.outcome == Accepted || v.outcome == Unverified
      modifies this`s, this`a, this`left
      ensures s.world == old(s).world || (v.Sent? && s.world == Pressed(old(s).world, e.id))
      ensures ok ==> Clean() && a.input.None?
      ensures ok ==> s.world == if v.Sent? then Pressed(old(s).world, e.id) else old(s).world
      ensures ok ==> s.disk == TypedOnce(old(s).disk, at, e, v) && a.compaction == old(a).compaction
      ensures old(left).None? ==> ok && left.None?
    {
      hide Inv, Steady, Finished;
      var wire := Pasted(e, v);
      if IsStartup(e) && !v.Hazard? {
        FileIsSound(s.disk, s.world, e.id);
        Rewritten(s.disk, s.world, wire);
        ok := Write(s.(disk := Put(s.disk, wire)));
        if !ok { return; }
      } else {
        assert Put(s.disk, wire) == s.disk;
      }
      if v.Sent? {
        ok := PressSubmit(e.id);
        if !ok { return; }
      }
      ok := FinishInput(at, wire, Result(e, v), v.reason);
    }

    /** The envelope is stamped, held, typed and filed. */
    method Attempt(at: Time, e: Envelope, fit: nat, v: Verdict) returns (ok: bool)
      requires at != 0 && Clean() && a.input.None? && Forget(a, e.id) == a
      requires In(s.disk, e.id, New) && s.disk.files[e.id].envelope == e
      requires s.world.typed[e.id] < s.world.links[e.id] && e.id !in s.world.stranded && !Unentered(a, e.id)
      requires v.Sent? ==> v.outcome == Delivered || v.outcome == Accepted || v.outcome == Unverified
      modifies this`s, this`a, this`left
      ensures s.world == old(s).world || (v.Sent? && s.world == Pressed(old(s).world, e.id))
      ensures ok ==> Clean() && a.input.None? && a.compaction == old(a).compaction
      ensures ok ==> s == State(Attempted(old(s).disk, at, e, fit, v), if v.Sent? then Pressed(old(s).world, e.id) else old(s).world)
      ensures old(left).None? ==> ok && left.None?
    {
      hide Inv, Steady, TypedOnce;
      var stamped;
      ok, stamped := StampEnvelope(e, fit);
      if !ok { return; }
      IntentSaved(s.disk, s.world, InputBegun(a, at, EnvelopeInput(e.id)));
      ok := Apply(at, InputStarted(EnvelopeInput(e.id)), s.world);
      if !ok { return; }
      ok := TypeInput(at, stamped, v);
    }

    /** One delivery: the envelope is stamped, held, typed and filed. The submit key is pressed
        only for a publication that was never typed before. */
    method Deliver(at: Time, e: Envelope, fit: nat, v: Verdict, late: Option<Hook>) returns (ok: bool)
      requires at != 0 && Clean() && a.input.None?
      requires In(s.disk, e.id, New) && s.disk.files[e.id].envelope == e
      requires IsResume(e) ==> CompletedResume(a, e)
      requires v.Sent? ==> v.outcome == Delivered || v.outcome == Accepted || v.outcome == Unverified
      modifies this`s, this`a, this`left
      ensures Grows(old(s).world, s.world)
      ensures s.world == old(s).world || (v.Sent? && s.world == Pressed(old(s).world, e.id))
      ensures ok ==> Clean() && a.input.None?
      ensures (ok || old(left).None?) ==> Done(s, ok) == DeliveryDone(old(s), at, e, fit, v, late)
      ensures old(left).None? ==> left.None?
      // An unverified attempt whose prompt a hook reported by then is delivered.
      ensures old(left).None? && Result(e, v) == Unverified && late.Some? && e.id in late.value.proves && e.createdAt <= late.value.at ==>
        ok && In(s.disk, e.id, Cur) && s.disk.files[e.id].envelope.outcome == Delivered
      // No other attempt looks at late proof.
      ensures old(left).None? && (late.None? || v.Hazard? || (v.Sent? && v.outcome != Unverified)) ==>
        ok && s.disk == Attempted(old(s).disk, at, e, fit, v)
    {
      hide Inv, Steady, Attempted, LateDone;
      FileIsSound(s.disk, s.world, e.id);
      ReceiptsResolve(s.disk, s.world, e.id);
      PressGrows(s.world, e.id);
      ok := Attempt(at, e, fit, v);
      if ok && Result(e, v) == Unverified {
        AttemptIsNamed(old(s), at, e, fit, v);
        var missing;
        ok, missing := ReconcileDelivery(at, late);
      }
    }

    method Withdraw(id: EnvelopeID) returns (ok: bool)
      requires a.input == s.disk.agent.input && a.input.None? && !id.ResumeNote?
      modifies this`s, this`left
      ensures s.world == old(s).world
      ensures s.disk == if ok then Remove(old(s).disk, id, New) else old(s).disk
      ensures old(left).None? ==> ok && left.None?
    {
      hide Inv, Steady;
      Withdrawn(s.disk, s.world, id);
      ok := Write(s.(disk := Remove(s.disk, id, New)));
    }

    method FirstReserved(pending: seq<Envelope>) returns (next: nat)
      ensures next == ReservedIn(a, pending)
    {
      hide CompletedResume;
      next := 0;
      assert pending[0..] == pending;
      while next < |pending| && !Reserved(a, pending[next])
        invariant next <= |pending| && ReservedIn(a, pending) == next + ReservedIn(a, pending[next..])
      {
        assert pending[next..][1..] == pending[next + 1..];
        next := next + 1;
      }
    }

    /** The oldest envelope that is due; those that expired before it are withdrawn. */
    method FirstDue(now: Time, pending: seq<Envelope>) returns (ok: bool, next: nat)
      requires Clean() && a.input.None? && Listing(s.disk, pending)
      modifies this`s, this`left
      ensures s.world == old(s).world && s.disk.agent == old(s).disk.agent
      ensures ok ==> next == DueIn(pending, now) && s.disk == WithoutExpired(old(s).disk, pending, next, now)
      ensures old(left).None? ==> ok && left.None?
    {
      hide Inv, Steady, Listing;
      next := 0;
      assert pending[0..] == pending;
      while next < |pending|
        invariant next <= |pending|
        invariant s.world == old(s).world && s.disk.agent == old(s).disk.agent
        invariant DueIn(pending, now) == next + DueIn(pending[next..], now)
        invariant s.disk == WithoutExpired(old(s).disk, pending, next, now)
        invariant old(left).None? ==> left.None?
      {
        var e := pending[next];
        assert pending[next..][1..] == pending[next + 1..];
        if Expired(e, now) {
          ListedIsMail(old(s).disk, old(s).world, pending, next);
          ok := Withdraw(e.id);
          if !ok { return; }
        } else if Due(e, now) {
          return true, next;
        }
        next := next + 1;
      }
      ok := true;
    }

    /** The owner drains the queue until nothing is due, the composer is taken, or a failed paste
        asks for a later drain. Behind a resume note it may not type, nothing is typed. */
    method DrainLocked(at: Time, turns: seq<Turn>) returns (ok: bool)
      requires at != 0 && Clean() && a.input.None?
      requires forall t <- turns :: t.verdict.Sent? ==>
        t.verdict.outcome == Delivered || t.verdict.outcome == Accepted || t.verdict.outcome == Unverified
      modifies this`s, this`a, this`left
      ensures Grows(old(s).world, s.world)
      ensures ok ==> Clean() && a.input.None?
      ensures (ok || old(left).None?) ==> Done(s, ok) == DrainDone(old(s), at, turns)
      ensures (exists id :: Stuck(DrainReady(old(s), at).disk, id, at)) ==> s.world.typed == old(s).world.typed
      ensures old(left).None? ==> left.None?
      // In the turns' own terms, as for the turns alone.
      ensures forall i | 0 <= i < |turns| && !turns[i].free :: |s.world.typed| <= |old(s).world.typed| + i
      ensures StartupRetained(old(s).disk) || old(a).status != Active ==> s.world.typed == old(s).world.typed
      ensures old(left).None? && PlainQueue(old(s).disk, at) && old(a).compaction.None? && old(a).status == Active
              && (forall turn <- turns :: GoesOn(turn)) ==>
        Drains(old(s), turns, Done(s, ok))
      ensures ok && turns == [] ==> a.status == Dropping || Looked(s.disk, at)
    {
      hide Inv, Steady, Continued, Drained, DeadlinesDone, Grows, Stuck, StartupRetained, PlainQueue;
      ReadyStands(s, at);
      GrowsSame(s.world);
      if a.status != Dropping {
        DeadlineFields(a, at);
      }
      ok := CheckDeadlinesLocked(at);
      if !ok { return; }
      ContinuedLooks(s, at);
      ok := ContinueCompaction(at);
      if !ok || a.status != Active {
        return;
      }
      ghost var before := s.world;
      ok := DrainTurns(at, turns);
      GrowsOn(old(s).world, before, s.world);
    }

    method DrainTurns(at: Time, turns: seq<Turn>) returns (ok: bool)
      requires at != 0 && Clean() && a.input.None?
      requires forall t <- turns :: t.verdict.Sent? ==>
        t.verdict.outcome == Delivered || t.verdict.outcome == Accepted || t.verdict.outcome == Unverified
      modifies this`s, this`a, this`left
      ensures Grows(old(s).world, s.world)
      ensures ok ==> Clean() && a.input.None?
      ensures (ok || old(left).None?) ==> Done(s, ok) == Drained(old(s), at, turns)
      ensures (exists id :: Stuck(old(s).disk, id, at)) ==> s.world == old(s).world
      ensures old(left).None? ==> left.None?
      // In the turns' own terms: an occupied composer and a failed startup stop the drain, and nothing is typed.
      ensures forall i | 0 <= i < |turns| && !turns[i].free :: |s.world.typed| <= |old(s).world.typed| + i
      ensures turns == [] ==> ok && s == old(s)
      ensures turns != [] && (!turns[0].free || StartupRetained(old(s).disk)) ==>
        && s.world == old(s).world && s.disk.agent == old(s).disk.agent
        && (old(left).None? ==>
              && ok
              && forall k | In(old(s).disk, k, New) && Keeps(old(s).disk.files[k].envelope, at) ::
                   In(s.disk, k, New) && s.disk.files[k] == old(s).disk.files[k])
      // Turns that go on take one envelope each; a withdrawn paste ends the drain.
      ensures old(left).None? && PlainQueue(old(s).disk, at) && (forall turn <- turns :: GoesOn(turn)) ==>
        Drains(old(s), turns, Done(s, ok))
      ensures old(left).None? && PlainQueue(old(s).disk, at) && QueuedIDs(old(s).disk) != {}
              && (forall k <- QueuedIDs(old(s).disk) :: old(s).disk.files[k].envelope.from.kind != GanglineSender)
              && turns != [] && turns[0].free && turns[0].verdict.NotSubmitted? && turns[0].verdict.cleared ==>
        ok && s.world == old(s).world && |QueuedIDs(s.disk)| == |QueuedIDs(old(s).disk)| - 1
    {
      hide Inv, Steady, Drained, Grows, Stuck, PlainQueue, Drains, StartupRetained;
      DrainsTold(s, at, turns);
      GrowsSame(s.world);
      ok := true;
      assert turns[0..] == turns;
      for i := 0 to |turns|
        invariant ok && Clean() && a.input.None? && Grows(old(s).world, s.world)
        invariant Drained(s, at, turns[i..]) == Drained(old(s), at, turns)
        invariant |s.world.typed| <= |old(s).world.typed| + i && forall j | 0 <= j < i :: turns[j].free
        invariant if i == 0 then s == old(s) else !StartupRetained(old(s).disk) && !exists id :: Stuck(old(s).disk, id, at)
        invariant old(left).None? ==> left.None?
      {
        ghost var rest, world := turns[i..], s.world;
        assert rest[0] == turns[i] && rest[1..] == turns[i + 1..];
        var done;
        ok, done := TakeTurn(at, turns[i], rest);
        GrowsOn(old(s).world, world, s.world);
        if !ok || done {
          return;
        }
      }
      DrainUnfolds(s, at, turns[|turns|..]);
    }

    /** One turn of a drain, and whether the drain is done with it. */
    method TakeTurn(at: Time, turn: Turn, ghost turns: seq<Turn>) returns (ok: bool, done: bool)
      requires at != 0 && Clean() && a.input.None? && turns != [] && turns[0] == turn
      requires turn.verdict.Sent? ==>
        turn.verdict.outcome == Delivered || turn.verdict.outcome == Accepted || turn.verdict.outcome == Unverified
      modifies this`s, this`a, this`left
      ensures Grows(old(s).world, s.world)
      ensures ok ==> Clean() && a.input.None?
      ensures (ok || old(left).None?) ==>
        Drained(old(s), at, turns) == if ok && !done then Drained(s, at, turns[1..]) else Done(s, ok)
      ensures |s.world.typed| <= |old(s).world.typed| + if turn.free then 1 else 0
      ensures (exists id :: Stuck(old(s).disk, id, at)) || !turn.free || StartupRetained(old(s).disk) ==>
        s.world == old(s).world && s.disk.agent == old(s).disk.agent && (ok ==> done)
      ensures old(left).None? ==> left.None?
    {
      hide Inv, Steady, Listing, CompletedResume, Picked, DeliveryDone, Drained, Grows, Stuck, Mail, StartupRetained, FailedStartup, EndsDrain;
      GrowsSame(s.world);
      DrainUnfolds(s, at, turns);
      StuckIsPicked(s.disk, s.world, at);
      SweepKeepsStartup(s.disk, at);
      done := true;
      var next;
      ok, next := TakeUp(at);
      if !ok || next.None? {
        return;
      }
      var e := next.value;
      if (IsResume(e) && !CompletedResume(a, e)) || FailedStartup(s.disk) || !turn.free {
        return;
      }
      ghost var world := s.world;
      ok := Deliver(at, e, turn.fit, turn.verdict, turn.late);
      GrowsOn(old(s).world, world, s.world);
      done := EndsDrain(a, e, turn.verdict);
    }

    /** What a turn takes up: the listing is read, what expired withdrawn, and one envelope chosen. */
    method TakeUp(at: Time) returns (ok: bool, next: Option<Envelope>)
      requires Clean() && a.input.None?
      modifies this`s, this`left
      ensures s.world == old(s).world && s.disk.agent == old(s).disk.agent
      ensures ok ==> Pick(s.disk, next) == Picked(old(s).disk, Mail(old(s).disk), at)
      ensures ok && next.Some? ==> In(s.disk, next.value.id, New) && s.disk.files[next.value.id].envelope == next.value
      ensures old(left).None? ==> ok && left.None?
    {
      hide Inv, Steady, Listing, CompletedResume, Mail;
      next := None;
      var pending := ListNew();
      var n := FirstReserved(pending);
      ok := true;
      if n == |pending| {
        ok, n := FirstDue(at, pending);
        if !ok { return; }
        SweepSpares(old(s).disk, old(s).world, pending, n, at);
      }
      ListedOnes(old(s).disk, pending);
      next := if n < |pending| then Some(pending[n]) else None;
    }

    /** The compact command saves a request, unless the continuation of an earlier one is known to be
        on its way. */
    method RequestCompaction(at: Time, id: nat, resume: string, from: Sender, running: bool) returns (ok: bool)
      requires at != 0 && Clean() && a.input.None? && id !in s.world.compactions
      requires !(from.kind == GanglineSender && from.name == "context-band")
      modifies this`s, this`a, this`left
      ensures Grows(old(s).world, s.world)
      ensures ok ==> Clean() && a == old(a).(compaction := Some(NewCompaction(id, at, resume, from)), changedAt := at)
      ensures s == if ok then State(old(s).disk.(agent := a), RequestCounted(old(s).disk, old(s).world, id)) else old(s)
      ensures ok <==> !RequestRefused(old(s).disk, at, running) && old(left) != Some(0)
      ensures old(left).None? ==> left.None?
    {
      hide Inv, Steady;
      if a.status != Active || FailedStartup(s.disk) {
        return false;
      }
      if a.compaction.Some? {
        var c := a.compaction.value;
        if In(s.disk, ResumeNote(c.id), New) && CompletedResume(a, s.disk.files[ResumeNote(c.id)].envelope) {
          return false;
        }
        if c.status == Completed && c.continuation && !c.resumeAdmitted && at < c.completedAt + OPERATION_TIMEOUT {
          return false;
        }
        if c.status == CompactionUnverified && c.continuation && !c.resumeAdmitted && !c.recovered && running {
          return false;
        }
        if PendingRequest(c) {
          return false;
        }
      }
      var e := CompactionRequested(Some(NewCompaction(id, at, resume, from)));
      Requested(s.disk, s.world, Step(a, a.id, at, e).agent);
      ok := Apply(at, e, RequestCounted(s.disk, s.world, id));
    }

    /** The continuation is published once, and the compaction remembers that it was. */
    method PublishResume(at: Time, token: nat) returns (ok: bool)
      requires at != 0 && Clean() && a.input.None?
      requires a.compaction.Some? && a.compaction.value.status == Submitted
      requires s.world.links[ResumeNote(a.compaction.value.id)] == 0
      modifies this`s, this`a, this`left
      ensures Grows(old(s).world, s.world)
      ensures s.world.typed == old(s).world.typed
      ensures ok ==> Clean() && s == ResumePublished(old(s), at, token)
      ensures var trace := PublishTrace(old(s), at, token);
              s == Reached(trace, old(left)) && (ok <==> Lives(old(left), |trace| - 1))
      ensures ok ==>
        var id := ResumeNote(old(a).compaction.value.id);
        && a.input.None? && In(s.disk, id, New) && s.disk.files[id].envelope == ResumeEnvelope(Tokened(old(a), token), at)
        && s.world.links[id] == 1 && s.world.typed[id] == 0
        && ResumeEnvelope(a, at) == ResumeEnvelope(Tokened(old(a), token), at)
        && a.compaction == Some(Tokened(old(a), token).compaction.value.(continuation := true))
      ensures old(left).None? ==> ok && left.None?
      // What it queues is what was asked for, under the record's token.
      ensures ok ==>
        && AsAsked(s.disk.files[ResumeNote(old(a).compaction.value.id)].envelope, old(a), token, at)
        && a.compaction.value.resumeToken == Some(s.disk.files[ResumeNote(old(a).compaction.value.id)].envelope.token)
    {
      hide Inv, Steady, Queue, Grows;
      GrowsSame(s.world);
      ok := GiveToken(token);
      if !ok { return; }
      ok := LinkResume(at);
    }

    /** The link, and then the record that remembers it. */
    method LinkResume(at: Time) returns (ok: bool)
      requires at != 0 && Clean() && a.input.None?
      requires a.compaction.Some? && a.compaction.value.status == Submitted && a.compaction.value.resumeToken.Some?
      requires s.world.links[ResumeNote(a.compaction.value.id)] == 0
      modifies this`s, this`a, this`left
      ensures Grows(old(s).world, s.world) && s.world.typed == old(s).world.typed
      ensures ok ==> Clean() && a == old(a).(compaction := Some(old(a).compaction.value.(continuation := true)))
      ensures var linked := Queue(old(s), ResumeEnvelope(old(a), at));
              s == Reached([old(s), linked, linked.(disk := linked.disk.(agent :=
                old(a).(compaction := Some(old(a).compaction.value.(continuation := true)))))], old(left))
      ensures (ok <==> Lives(old(left), 2)) && left == Rest(old(left), 2)
      ensures ok ==>
        var id := ResumeNote(old(a).compaction.value.id);
        && In(s.disk, id, New) && s.disk.files[id].envelope == ResumeEnvelope(old(a), at)
        && s.world.links[id] == 1 && s.world.typed[id] == 0
    {
      hide Inv, Steady;
      UnlinkedIsAbsent(s.disk, s.world, ResumeNote(a.compaction.value.id));
      CurrentIsSound(s.disk, s.world);
      ok := PublishOnce(ResumeEnvelope(a, at));
      if !ok { return; }
      a := a.(compaction := Some(a.compaction.value.(continuation := true)));
      CompactionMoved(s.disk, s.world, a);
      ok := Save();
    }

    method GiveToken(token: nat) returns (ok: bool)
      requires Clean() && a.input.None? && a.compaction.Some? && a.compaction.value.status == Submitted
      modifies this`s, this`a, this`left
      ensures s.world == old(s).world && s.disk.files == old(s).disk.files
      ensures ok ==> Clean() && a == Tokened(old(a), token)
      ensures if Tokened(old(a), token) == old(a) then ok && s == old(s) && left == old(left)
              else && (ok <==> old(left) != Some(0)) && left == Rest(old(left), 1)
                   && s == if ok then old(s).(disk := old(s).disk.(agent := a)) else old(s)
    {
      hide Inv, Steady;
      if a.compaction.value.resumeToken.Some? {
        return true;
      }
      a := a.(compaction := Some(a.compaction.value.(resumeToken := Some(token))));
      CompactionMoved(s.disk, s.world, a);
      ok := Save();
    }

    /** The continuation enters native input right behind the compact command. An error says why
        it did not. */
    method QueueResume(at: Time, token: nat, entry: Entry, fit: nat, late: Option<Hook>)
      returns (ok: bool, error: Option<string>)
      requires at != 0 && Clean() && a.input.None?
      requires a.compaction.Some? && a.compaction.value.status == Submitted
      requires s.world.links[ResumeNote(a.compaction.value.id)] == 0
      modifies this`s, this`a, this`left
      ensures Grows(old(s).world, s.world)
      ensures ok ==> Clean() && a.input.None? && Current(a, old(a).compaction.value.id) && a.compaction.value.status == Submitted
      ensures ok ==> Entered(s, error) == ResumeEntered(old(s), at, token, entry, fit, late)
      ensures entry.ComposerRefused? ==> s.world.typed == old(s).world.typed
      ensures old(left).None? ==> ok && left.None?
      ensures ok ==>
        var id := ResumeNote(old(a).compaction.value.id);
        && s.world.typed == (if entry.ComposerRefused? || entry.PasteFailed? then old(s).world.typed
                             else old(s).world.typed + multiset{id})
        && (error.None? ==> !In(s.disk, id, New))
      ensures ok ==> a.compaction == Some(Tokened(old(a), token).compaction.value.(continuation := true))
      ensures ok && !entry.InQueue? ==> error.Some?
      ensures ok && entry.InQueue? && (late.Some? ==> ReceiptsRead(old(s).disk)) ==> error.None?
    {
      hide Inv, Steady, Attempted, ResumePublished, ResumeTyped, Grows, ReceiptsRead, PublishTrace, Reached, Lives, AsAsked;
      GrowsSame(s.world);
      error := None;
      if ReceiptsRead(s.disk) {
        PublishedReads(s, at, token);
      }
      ok := PublishResume(at, token);
      if !ok { return; }
      if entry.ComposerRefused? {
        return ok, Some(entry.Reason());
      }
      var e := ResumeEnvelope(a, at);
      ghost var before := s.world;
      ok, error := TypeResume(at, e, entry, fit, late);
      GrowsOn(old(s).world, before, s.world);
    }

    /** The queued continuation is typed behind the compact command. */
    method TypeResume(at: Time, e: Envelope, entry: Entry, fit: nat, late: Option<Hook>)
      returns (ok: bool, error: Option<string>)
      requires at != 0 && Clean() && a.input.None? && !entry.ComposerRefused?
      requires a.compaction.Some? && e.id == ResumeNote(a.compaction.value.id) && a.compaction.value.status == Submitted
      requires In(s.disk, e.id, New) && s.disk.files[e.id].envelope == e && s.world.typed[e.id] < s.world.links[e.id]
      requires a.compaction.value.continuation
      modifies this`s, this`a, this`left
      ensures Grows(old(s).world, s.world)
      ensures ok ==> Clean() && a.input.None? && a.compaction == old(a).compaction
      ensures ok ==> Entered(s, error) == ResumeTyped(old(s), at, e, entry, fit, late)
      ensures old(left).None? ==> ok && left.None?
      ensures ok && error.None? ==> !In(s.disk, e.id, New)
      ensures ok && !entry.InQueue? ==> error.Some?
      ensures ok && entry.InQueue? && (late.Some? ==> ReceiptsRead(old(s).disk)) ==> error.None?
      ensures ok && entry.InQueue? && late.None? ==>
        && e.id in s.disk.files && s.disk.files[e.id].dir == (if entry.accepted then Cur else FailedDir)
        && s.disk.files[e.id].envelope.outcome == if entry.accepted then Accepted else Unverified
      // The key was pressed unless the paste failed; what stopped the entry is the error, and leaves it unverified.
      ensures ok ==> s.world.typed == if entry.PasteFailed? then old(s).world.typed else old(s).world.typed + multiset{e.id}
      ensures ok && !entry.InQueue? ==>
        && error == Some(entry.reason) && e.id in s.disk.files && s.disk.files[e.id].dir == FailedDir
        && s.disk.files[e.id].envelope.outcome == Unverified
    {
      hide Inv, Steady, Attempted, LateDone, Grows;
      ReceiptsResolve(s.disk, s.world, e.id);
      FileIsSound(s.disk, s.world, e.id);
      error := None;
      AttemptIsNamed(s, at, e, fit, EntryVerdict(entry));
      ok := Attempt(at, e, fit, EntryVerdict(entry));
      PressGrows(old(s).world, e.id);
      if !ok { return; }
      if !entry.InQueue? {
        return ok, Some(entry.Reason());
      }
      AttemptLeaves(old(s).disk, at, e, fit, EntryVerdict(entry));
      if late.None? || ReceiptsRead(old(s).disk) {
        if late.Some? {
          AttemptReads(old(s), at, e, fit, EntryVerdict(entry));
        }
        ReadIsNoError(s.disk, late);
      }
      LateLeaves(s, at, late, e.id);
      var missing;
      ok, missing := ReconcileDelivery(at, late);
      if missing {
        return true, Some(RECEIPT_UNREADABLE);
      }
    }

    /** The record says what a queued compaction waits for. */
    method NoteWait(at: Time, reason: string) returns (ok: bool)
      requires at != 0 && Clean() && a.input.None? && a.compaction.Some? && a.compaction.value.status == Queued
      modifies this`s, this`a, this`left
      ensures s.world == old(s).world && s.disk.files == old(s).disk.files
      ensures ok ==> Clean() && a == WaitNoted(old(a), at, reason)
      ensures ok ==> a.input.None? && Current(a, old(a).compaction.value.id) && a.compaction.value.status == Queued
      ensures old(left).None? ==> ok && left.None?
    {
      hide Inv, Steady;
      if a.compaction.value.reason == reason {
        return true;
      }
      var waiting := CompactionWaiting(a.compaction.value.id, reason);
      CompactionMoved(s.disk, s.world, Step(a, a.id, at, waiting).agent);
      ok := Apply(at, waiting, s.world);
    }

    /** A queued compaction starts once the harness is idle. Past its submit key the continuation
        follows at once; whatever stops that fails the compaction. */
    method StartCompaction(at: Time, token: nat, start: Start) returns (ok: bool)
      requires at != 0 && Clean() && a.input.None?
      modifies this`s, this`a, this`left
      ensures Grows(old(s).world, s.world)
      ensures ok ==> Clean() && a.input.None?
      ensures (ok || old(left).None?) ==> Done(s, ok) == StartDone(old(s), at, token, start)
      ensures !start.Started? ==> s.world.typed == old(s).world.typed
      ensures old(left).None? ==> left.None?
      ensures (ok || old(left).None?) && old(a).compaction.Some? && old(a).compaction.value.status == Queued ==>
        && StartEnds(old(s).world, Done(s, ok), old(a).compaction.value.id)
        && StartedAs(s.disk.agent.compaction.value.status,
                     if old(a).status == Active && !StartupRetained(old(s).disk) then start else NotReady,
                     Unproved(old(s).disk, at, LateOf(start)))
    {
      hide Inv, Steady, CarriedOut, Grows, StartEnds;
      GrowsSame(s.world);
      StillQueued(s);
      if a.compaction.None? || a.compaction.value.status != Queued || a.status != Active
         || FailedStartup(s.disk) || start.NotReady? {
        return true;
      }
      if start.Waits? {
        ok := NoteWait(at, start.reason);
        if ok {
          StartHolds(old(s).world, s, old(a).compaction.value.id);
        }
        return;
      }
      ok := NoteWait(at, "");
      if !ok { return; }
      ok := BeginCompaction(at);
      if !ok { return; }
      ok := CarryOut(at, token, start);
    }

    /** The compaction's intent is saved; this is how far it gets. */
    method CarryOut(at: Time, token: nat, start: Start) returns (ok: bool)
      requires at != 0 && Clean() && a.compaction.Some? && a.compaction.value.status == Queued
      requires a.input == Some(CompactionInput(a.compaction.value.id)) && !start.NotReady? && !start.Waits?
      modifies this`s, this`a, this`left
      ensures Grows(old(s).world, s.world)
      ensures ok ==> Clean() && a.input.None?
      ensures (ok || old(left).None?) ==> Done(s, ok) == CarriedOut(old(s), at, token, start)
      ensures !start.Started? ==> s.world.typed == old(s).world.typed
      ensures old(left).None? ==> left.None?
      ensures (ok || old(left).None?) ==>
        && StartEnds(old(s).world, Done(s, ok), old(a).compaction.value.id)
        && StartedAs(s.disk.agent.compaction.value.status, start,
                     Unproved(old(s).disk, old(a).compaction.value.startedAt, LateOf(start)))
    {
      hide Inv, Steady, LostDone, StartEntered, FailTrace, Grows, StartEnds, Step, Applied;
      GrowsSame(s.world);
      CurrentIsSound(s.disk, s.world);
      var c := a.compaction.value.id;
      UnlinkedIsAbsent(s.disk, s.world, ResumeNote(c));
      match start
      case Aborted(reason) =>
        StartFails(s.world, s, c, at, reason);
        ok := FailCompaction(at, reason);
      case Deferred =>
        ok := DeferDraft(at);
        if ok {
          StartHolds(old(s).world, s, c);
        }
      case EnterFailed(reason) =>
        ok := CompactionUncertain(at, reason);
        if ok {
          StartHolds(old(s).world, s, c);
        }
      case Started(entry, fit, late, refused) =>
        ok := Submit(at, token, entry, fit, late, refused);
      case _ =>
    }

    /** The submit key of the compact command is saved, and the continuation follows. */
    method Submit(at: Time, token: nat, entry: Entry, fit: nat, late: Option<Hook>, refused: bool) returns (ok: bool)
      requires at != 0 && Clean() && a.compaction.Some? && a.compaction.value.status == Queued
      requires a.input == Some(CompactionInput(a.compaction.value.id))
      modifies this`s, this`a, this`left
      ensures Grows(old(s).world, s.world)
      ensures ok ==> Clean() && a.input.None?
      ensures (ok || old(left).None?) ==> Done(s, ok) == CarriedOut(old(s), at, token, Started(entry, fit, late, refused))
      ensures (ok || old(left).None?) ==>
        && StartEnds(old(s).world, Done(s, ok), old(a).compaction.value.id)
        && StartedAs(s.disk.agent.compaction.value.status, Started(entry, fit, late, refused),
                     Unproved(old(s).disk, old(a).compaction.value.startedAt, late))
      ensures old(left).None? ==> left.None?
    {
      hide Inv, Steady, LostDone, StartEntered, FailTrace, Grows, StartEnds;
      GrowsSame(s.world);
      CurrentIsSound(s.disk, s.world);
      var c := a.compaction.value.id;
      ghost var before := s.world;
      CompactionMoved(s.disk, s.world, Step(a, a.id, at, CompactionSubmitted(c)).agent);
      ok := Apply(at, CompactionSubmitted(c), s.world);
      if !ok { return; }
      ok := EnterContinuation(at, token, entry, fit, late, refused);
      GrowsOn(old(s).world, before, s.world);
    }

    /** What follows the submit key of a compaction. */
    method EnterContinuation(at: Time, token: nat, entry: Entry, fit: nat, late: Option<Hook>, refused: bool) returns (ok: bool)
      requires at != 0 && Clean() && a.input.None?
      requires a.compaction.Some? && a.compaction.value.status == Submitted
      requires s.world.links[ResumeNote(a.compaction.value.id)] == 0
      modifies this`s, this`a, this`left
      ensures Grows(old(s).world, s.world)
      ensures ok ==> Clean() && a.input.None?
      ensures (ok || old(left).None?) ==> Done(s, ok) == StartEntered(old(s), at, token, entry, fit, late, refused)
      ensures old(left).None? ==> left.None?
      ensures (ok || old(left).None?) ==>
        && StartEnds(old(s).world, Done(s, ok), old(a).compaction.value.id)
        && StartedAs(s.disk.agent.compaction.value.status, Started(entry, fit, late, refused),
                     Unproved(old(s).disk, old(a).compaction.value.startedAt, late))
    {
      hide Inv, Steady, LostDone, ResumeEntered, ObservationDone, Continued, FailTrace, Grows, StartEnds, ReceiptsRead;
      hide NoteDelivered, CleanLoss, CompactionSound;
      ghost var c := a.compaction.value.id;
      var error;
      ok, error := QueueResume(at, token, entry, fit, late);
      if !ok { return; }
      ghost var before := s.world;
      if error.Some? {
        StartFails(old(s).world, s, c, at, error.value);
        ok := FailCompaction(at, error.value);
        GrowsOn(old(s).world, before, s.world);
        return;
      }
      ok := LookOn(old(s).world, at, refused);
      GrowsOn(old(s).world, before, s.world);
    }

    /** With its continuation entered, the compaction is looked at on screen and gone on with. */
    method LookOn(ghost w: World, at: Time, refused: bool) returns (ok: bool)
      requires at != 0 && Clean() && a.input.None?
      requires a.compaction.Some? && a.compaction.value.status == Submitted && !In(s.disk, NoteOf(a), New)
      requires s.world.typed == w.typed || s.world.typed == w.typed + multiset{NoteOf(a)}
      modifies this`s, this`a, this`left
      ensures Grows(old(s).world, s.world)
      ensures ok ==> Clean() && a.input.None?
      ensures (ok || old(left).None?) ==>
        var seen := ObservationDone(old(s), at, refused);
        Done(s, ok) == if seen.ok then Done(Continued(seen.state, at), true) else seen
      ensures (ok || old(left).None?) ==>
        && StartEnds(w, Done(s, ok), old(a).compaction.value.id) && s.disk.agent.compaction.value.status != Queued
        && (old(a).compaction.value.completedAt <= old(a).compaction.value.startedAt ==>
              s.disk.agent.compaction.value.status == if refused then CompactionFailed else Submitted)
      ensures old(left).None? ==> left.None?
    {
      hide Inv, Steady, LostDone, ObservationDone, Continued, FailTrace, Grows, StartEnds, InOrder;
      StartGoesOn(w, s, a.compaction.value.id, at, refused);
      ok := ObserveCompaction(at, refused);
      if !ok { return; }
      ghost var before := s.world;
      ok := ContinueCompaction(at);
      GrowsOn(old(s).world, before, s.world);
    }

    method BeginCompaction(at: Time) returns (ok: bool)
      requires at != 0 && Clean() && a.input.None? && a.compaction.Some? && a.compaction.value.status == Queued
      modifies this`s, this`a, this`left
      ensures s.world == old(s).world && s.disk.files == old(s).disk.files
      ensures ok ==> Clean() && a == Begun(old(a), at)
      ensures old(left).None? ==> ok && left.None?
    {
      hide Inv, Steady;
      var c := a.compaction.value.(startedAt := at, deadline := at + OPERATION_TIMEOUT);
      a := a.(compaction := Some(c));
      CompactionMoved(s.disk, s.world, a);
      IntentSaved(s.disk.(agent := a), s.world, InputBegun(a, at, CompactionInput(c.id)));
      RecordSteady(s.disk, InputBegun(a, at, CompactionInput(c.id)));
      ok := Apply(at, InputStarted(CompactionInput(c.id)), s.world);
    }

    /** A staged command withdrawn from the composer leaves the request queued. */
    method DeferDraft(at: Time) returns (ok: bool)
      requires at != 0 && Clean() && a.compaction.Some? && a.compaction.value.status == Queued
      requires a.input == Some(CompactionInput(a.compaction.value.id))
      modifies this`s, this`a, this`left
      ensures s.world == old(s).world && s.disk.files == old(s).disk.files
      ensures ok ==> Clean() && a.input.None? && Current(a, old(a).compaction.value.id) && a.compaction.value.status == Queued
      ensures ok ==> a == old(a).(input := None, changedAt := at,
                                  compaction := Some(old(a).compaction.value.(reason := DRAFT_WITHDRAWN)))
      ensures old(left).None? ==> ok && left.None?
      ensures ok ==>
        var c := old(a).compaction.value.id;
        a == Applied(Applied(old(a), at, InputFinished(CompactionInput(c), "withdrawn", "")), at, CompactionWaiting(c, DRAFT_WITHDRAWN))
    {
      hide Inv, Steady;
      var c := a.compaction.value.id;
      var done := InputFinished(CompactionInput(c), "withdrawn", "");
      CompactionMoved(s.disk, s.world, Step(a, a.id, at, done).agent);
      ok := Apply(at, done, s.world);
      if !ok { return; }
      var waiting := CompactionWaiting(c, DRAFT_WITHDRAWN);
      CompactionMoved(s.disk, s.world, Step(a, a.id, at, waiting).agent);
      ok := Apply(at, waiting, s.world);
    }

    method CompactionUncertain(at: Time, reason: string) returns (ok: bool)
      requires at != 0 && Clean() && a.compaction.Some? && a.compaction.value.status == Queued
      requires a.input == Some(CompactionInput(a.compaction.value.id))
      modifies this`s, this`a, this`left
      ensures s.world == old(s).world && s.disk.files == old(s).disk.files
      ensures ok ==> Clean() && a == Applied(old(a), at, CompactionUnconfirmed(old(a).compaction.value.id, reason, false))
      ensures ok ==> a.input.None? && Current(a, old(a).compaction.value.id) && a.compaction.value.status == CompactionUnverified
      ensures old(left).None? ==> ok && left.None?
    {
      hide Inv, Steady;
      var e := CompactionUnconfirmed(a.compaction.value.id, reason, false);
      CompactionMoved(s.disk, s.world, Step(a, a.id, at, e).agent);
      ok := Apply(at, e, s.world);
    }

    /** The submit hook admits the queued continuation once, and only while its compaction is
        current and has not failed; the note it blocks instead fails the compaction. */
    method AdmitResume(at: Time, matches: bool, sameSession: bool, heads: bool) returns (ok: bool, admitted: bool)
      requires at != 0 && Clean() && a.input.None?
      modifies this`s, this`a, this`left
      ensures Grows(old(s).world, s.world)
      ensures ok ==> Clean() && a.input.None?
      ensures (ok || old(left).None?) ==> Done(s, ok) == AdmissionDone(old(s), at, matches, sameSession, heads)
      ensures admitted <==> !PromptBlocked(old(a), matches, sameSession) && old(left) != Some(0)
      ensures admitted ==> ok && old(a).compaction.Some?
      ensures admitted ==>
        var c := old(a).compaction.value.id;
        && old(s).world.admissions[c] == 0 && c !in old(s).world.dead
        && s.world == old(s).world.(admissions := old(s).world.admissions + multiset{c})
        && Current(a, c) && a.compaction.value.resumeAdmitted
      ensures !admitted ==> s.world.admissions == old(s).world.admissions
      ensures s.world.typed == old(s).world.typed
      ensures old(left).None? ==> left.None?
      // In the record's own terms: who is admitted, and what becomes of the others.
      ensures old(left).None? ==>
        (admitted <==>
          && matches && sameSession && old(a).compaction.Some?
          && var c := old(a).compaction.value;
          && c.resumeToken.Some? && !c.resumeAdmitted
          && ((c.status == Completed && c.completedAt > c.startedAt)
              || ((c.status == Submitted || c.status == CompactionUnverified) && c.continuation)))
      ensures admitted ==>
        var c := old(a).compaction.value;
        a.compaction.value.status ==
          if c.status == Submitted && c.completedAt <= c.startedAt then CompactionUnverified else c.status
      ensures old(left).None? && !admitted && old(a).compaction.Some? ==>
        var c := old(a).compaction.value;
        if heads && c.resumeToken.Some? && !c.resumeAdmitted && c.status != CompactionFailed
        then FailedCompaction(s.disk.agent, c.id) else ok && s == old(s)
      ensures old(a).compaction.None? ==> ok && s == old(s)
    {
      hide Inv, Steady, LostDone, FailTrace;
      CurrentIsSound(s.disk, s.world);
      AdmittedOnce(s.disk, s.world);
      admitted := false;
      if PromptBlocked(a, matches, sameSession) {
        if a.compaction.None? || a.compaction.value.resumeToken.None? || a.compaction.value.resumeAdmitted
           || a.compaction.value.status == CompactionFailed || !heads {
          return true, false;
        }
        LossIsSaved(s, at, NOTE_BLOCKED);
        ok := FailCompaction(at, NOTE_BLOCKED);
        return;
      }
      var c := a.compaction.value.(resumeAdmitted := true);
      if c.status == Submitted && c.completedAt <= c.startedAt {
        c := c.(status := CompactionUnverified, reason := ADMITTED_UNCONFIRMED);
      }
      a := a.(compaction := Some(c));
      AdmissionSaved(s.disk, s.world, a);
      ok := Write(State(s.disk.(agent := a), s.world.(admissions := s.world.admissions + multiset{c.id})));
      admitted := ok;
    }

    /** An operator stops a compaction: a queued one is taken back, a running one is interrupted
        and left unverified. */
    method InterruptCompaction(at: Time, busy: bool, reason: string) returns (ok: bool)
      requires at != 0 && Clean() && a.input.None?
      modifies this`s, this`a, this`left
      ensures s.world == old(s).world && s.disk.files == old(s).disk.files
      ensures ok ==> Clean() && a.input.None? && Interruptible(old(a), busy) && a == Interrupted(old(a), at, reason)
      ensures ok && old(a).compaction.value.status == Queued ==> a.compaction.None?
      ensures ok && old(a).compaction.value.status != Queued ==>
        && Current(a, old(a).compaction.value.id) && a.compaction.value.status == CompactionUnverified
        && a.compaction.value.recovered
      ensures !Interruptible(old(a), busy) ==> !ok && s == old(s)
      ensures old(left).None? ==> left.None? && (ok <==> Interruptible(old(a), busy))
    {
      hide Inv, Steady;
      if a.compaction.None? {
        return false;
      }
      var c := a.compaction.value;
      if c.status == Queued {
        RequestDropped(s.disk, s.world, Step(a, a.id, at, CompactionCancelled(c.id)).agent);
        ok := Apply(at, CompactionCancelled(c.id), s.world);
        return;
      }
      if (c.status != Submitted && c.status != CompactionUnverified) || !c.continuation || c.resumeAdmitted
         || c.recovered || a.status != Active || !busy {
        return false;
      }
      IntentSaved(s.disk, s.world, InputBegun(a, at, RecoveryInput(c.id)));
      ok := Apply(at, InputStarted(RecoveryInput(c.id)), s.world);
      if !ok { return; }
      var e := CompactionUnconfirmed(c.id, reason, true);
      CompactionMoved(s.disk, s.world, Step(a, a.id, at, e).agent);
      ok := Apply(at, e, s.world);
    }

    /** A fresh refusal on screen fails a compaction whose end was never proved. */
    method ObserveCompaction(at: Time, refused: bool) returns (ok: bool)
      requires at != 0 && Clean() && a.input.None?
      modifies this`s, this`a, this`left
      ensures Grows(old(s).world, s.world)
      ensures ok ==> Clean() && a.input.None?
      ensures (ok || old(left).None?) ==> Done(s, ok) == ObservationDone(old(s), at, refused)
      ensures s.world.typed == old(s).world.typed
      ensures old(left).None? ==> left.None?
      // In the record's own terms: only a refusal on screen fails a compaction that runs without a proved end.
      ensures (old(a).compaction.Some? ==>
        var c := old(a).compaction.value;
        (c.status != Submitted && c.status != CompactionUnverified) || (c.completedAt <= c.startedAt && !refused)) ==>
          ok && s == old(s) && a == old(a)
      ensures (ok || old(left).None?) && old(a).compaction.Some? ==>
        var c := old(a).compaction.value;
        && ((c.status == Submitted || c.status == CompactionUnverified) && c.completedAt <= c.startedAt && refused ==>
              FailedCompaction(s.disk.agent, c.id))
        && ((c.status == Submitted || c.status == CompactionUnverified) && c.completedAt > c.startedAt ==>
              && Current(s.disk.agent, c.id)
              && (s.disk.agent.compaction.value.status == Completed || s.disk.agent.compaction.value.status == CompactionFailed))
    {
      hide Inv, Steady, LostDone, FailTrace, Continued;
      if a.compaction.None? || (a.compaction.value.status != Submitted && a.compaction.value.status != CompactionUnverified) {
        return true;
      }
      if a.compaction.value.completedAt > a.compaction.value.startedAt {
        ProvedEnds(s, at);
        ok := ContinueCompaction(at);
      } else if refused {
        LossIsSaved(s, at, REFUSED);
        ok := FailCompaction(at, REFUSED);
      } else {
        ok := true;
      }
    }

    /** One upward band crossing is noted with the record that carries its reading. */
    method NoteBand(at: Time, message: string) returns (ok: bool)
      requires Clean() && a.input.None?
      modifies this`s, this`a, this`left
      ensures s.world == old(s).world && s.disk.files == old(s).disk.files
      ensures ok ==> Clean() && a == old(a).(bands := old(a).bands.(
        sequence := old(a).bands.sequence + 1, pending := old(a).bands.pending + [BandEnvelope(old(a), at, message)]))
      ensures old(left).None? ==> ok && left.None?
    {
      hide Inv, Steady;
      NotesAreBands(s.disk, s.world);
      a := a.(bands := a.bands.(
        sequence := a.bands.sequence + 1, pending := a.bands.pending + [BandEnvelope(a, at, message)]));
      CoreSaved(s.disk, s.world, a);
      ok := Save();
    }

    /** A sender publishes a message under a fresh identity, without the agent's lock. */
    method PublishNew(e: Envelope) returns (ok: bool)
      requires e.id.Message? && s.world.links[e.id] == 0 && !IsBandNotice(e) && e.outcome == NoOutcome
      modifies this`s, this`left
      ensures Grows(old(s).world, s.world)
      ensures s == if ok then Queue(old(s), e) else old(s)
      ensures ok <==> old(left) != Some(0)
      ensures ok ==> In(s.disk, e.id, New) && s.disk.files[e.id].envelope == e
      ensures old(left).None? ==> left.None?
    {
      hide Inv, Steady;
      UnlinkedIsAbsent(s.disk, s.world, e.id);
      ok := PublishOnce(e);
    }
  }
}
