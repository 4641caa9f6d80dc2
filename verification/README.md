# Gangline, modelled in Dafny

Gangline delivers messages to terminal agents through an on-disk maildir. Its locks, durable
intents and recovery code are meant to survive a crash between any two file operations. This
project models that protocol and the text and stream algorithms around it, and proves what they
promise. `dafny verify dfyconfig.toml` checks everything.

## How the model reads

* **Delivery** (`Records`, `AgentStep`, `DeliveryState`, `DeliverySteps`, `DeliverySpec`,
  `DeliveryTheorems`, `DeliveryDrains`, `DeliveryMeaning`, `DeliveryFields`, `DeliveryOrder`,
  `Delivery`, `DeliveryRuns`). `Owner` is the process that holds one agent's lock. Its methods
  follow the program's functions step by step and change the disk only through `Write`, one call
  per rename, link, removal, atomic save or key press. `left` is how many of those it lives for; a
  process that runs out does nothing more, which is a crash at that point. `Durable` is the disk
  and the history of what happened outside (links, key presses, admissions) restricted to states
  that keep the invariant, so a method verifies only if the invariant holds after every single
  write. `DeliverySpec` states what each operation does to the disk as a function, and the methods
  are proved equal to it; `DeliveryDrains`, `DeliveryMeaning` and `DeliveryFields` say what those
  functions come to in the fields of the record, the envelopes, the turns and the hooks, and the
  contracts repeat that where it is the point of an operation. For a process that lives on (`left`
  is `None`) each contract also says exactly when it fails. `World.stranded` remembers the resume
  notes known to be marooned, which get no key press, and `World.replaced` the compactions that a
  request replaced while their note was queued.
* **Concurrency** (`WakeUp`, `IdleLedger`). State machines over the atomic steps of any number of
  processes. `After` gives the state a run ends in; the theorems are about every run.
* **Stores** (`NameClaims`, `SessionBinding`, `StatusHooks`, `OutsideSend`). Classes over what is on
  disk. Faults, crashes and rivals are parameters: a budget of steps, a fate for each step, or
  what rivals do in each gap. `NameClaims` also runs a whole team of renaming agents.
* **Text and streams** (`Defang`, `PasteMatch`, `Options`, `AwaitPaste`, `TurnClose`, `LogPaging`,
  `InboxOrder`). The loops are methods, each proved against a function or a declarative reading;
  what they promise is proved about that.

Screens, hooks, clocks, decoded JSON, hashes and fresh identities are parameters. Fresh means not
used before; a hash stands for what it is taken of.

## Where the program does less than it promises

Each of these is a lemma with the condition under which it happens.

1. `docs/internals.md` (296-297) and `cmd/gang/context_bands.go` (105-106) say uncertain input is
   never typed again. A context-band note can be: it stays pending after an unverified attempt, the
   next failed message replaces its receipt, and the next publication finds no file of it
   (`DeliveryTheorems.NoteRepublishedIff`, `NoteTypedAgain`; `DeliveryRuns.BandNoteTypedTwice`
   is a run without any crash). Every other envelope is typed at most once.
2. Cancelling a continuation can leave a file in `failed` that nothing names or removes. It does so
   exactly when the process dies right after the rename, or when another failure keeps its receipt,
   which needs no crash (`DeliveryTheorems.OrphanIff`, `OrphanStays`). There is at most one such
   file for each compaction that failed (`ReceiptsBounded`).
3. A process that dies between moving a filed continuation back into `new` and saving the record
   leaves the record naming a missing receipt (`DanglingIff`); no other write does
   (`DanglesByTakingBack`). A living owner fails to take the lock exactly when such a record meets a
   readable submit hook that proves no earlier receipt (`DeliverySpec.ReadErrorIff`,
   `Owner.Acquire`), and each such attempt leaves it so (`DeliveryRuns.StaysWedged`).
4. A continuation in `new` can be marooned: its compaction failed or was replaced, and no later
   process types, cancels or withdraws it (`DeliveryRuns.Run`). Two operations maroon a note, and no
   other does (`Owner.Write`, `MaroonedMeans`). A failing compaction does when its process dies after
   the saved failure and before the note is filed (`MaroonedIff`). A request does exactly when the
   note of the current compaction is queued and that has not failed (`RequestMaroonsIff`);
   `DeliveryRuns.NoteReplaced` is such a run, in which no compaction ever fails. A drain gets nothing
   past the note but reserved and older mail (`MaroonedHolds`), and stops at it exactly when there
   is no such mail (`MaroonedIsStuckIff`, `TurnHeldBackIff`); another request frees nothing
   (`RequestKeepsStuck`).
5. Clearing scheduled mail resolves the idle ledger before it lists the inbox. A link between the
   two is deleted uncounted (`IdleLedger.ClearingCanLoseACount`). With that pair taken as atomic the
   count is exact (`CountedExactlyOnce`).
6. The paste matcher misses an escaping exactly when the sent text holds `<\` itself
   (`PasteMatch.UndoesEveryEscapeIff`).
7. Taking `--team` out commutes with scanning exactly when no three-dash `---team` took a value
   (`Options.TakingOutCommutes`). The command refuses such an option anyway.

## Model

| member | source | states |
|---|---|---|
| AgentStep.StepKeepsReceipts | core/step.go:5-142 | No transition touches the identity, the receipts, the pending cleanup or the band notes: those belong to the store. |
| AgentStep.LeavesFailedIff | core/step.go:51-91 | Exactly which events let the transition function alone lead a compaction out of its failed state: submitted, completed and unconfirmed ones of that compaction. |
| AgentStep.RefusedIff | core/step.go:5-90 | Exactly which events the transition function rejects: one of another agent or without a time, a boot reopened that did not fail by its deadline, a second input, the end of an input that is not in progress, and a request while an earlier compaction is queued, submitted or completed without its continuation. |
| AgentStep.StatusAfter | core/step.go:14-137 | What each event makes of the status and of the input in progress, field by field. |
| AgentStep.CompactionAfter | core/step.go:43-137 | What each event makes of the compaction; an event of another compaction changes nothing of it. |
| AgentStep.ActivityAfter | core/step.go:14-137 | What each event shows as the activity, and the times it stamps. |
| AgentStep.CapacityAfter | core/step.go:92-122 | What each event makes of a capacity failure: the same failure changes nothing, another one is due after no less than 100 and no more than 30000 milliseconds. |
| AgentStep.DeadlineCheckShows | core/step.go:123-137 | An owner that compares status, activity and evidence before and after a deadline check misses no change it has to save, apart from an overdue compaction. |
| AgentStep.DeadlineCheckSettles | core/step.go:123-137 | A deadline check is settled by one application: repeating it at the same time changes nothing. |
| AgentStep.Transition | core/step.go:5-142 | The switch over its own copy of the record, with every rejection but the capacity one, gives the transition the delivery proofs reason about; an input is finished by its ID alone. |
| AgentStep.RetryDelay | core/agent.go:322-329 | The loop gives the first delay doubled per earlier attempt, capped at the last delay, for every attempt number. |
| DeliverySteps.CleanupRemoved | store/inbox.go:140-156 | Removing the receipt awaiting cleanup keeps the crash invariant. |
| DeliverySteps.CleanupCleared | store/inbox.go:140-156 | Clearing the cleanup reference afterwards keeps the crash invariant. |
| DeliverySteps.Rewritten | store/inbox.go:200-215 | Rewriting a queued envelope in place keeps the crash invariant. |
| DeliverySteps.HeldMoved | cmd/gang/runtime.go:452-506 | The envelope a saved intent holds may be renamed between the inbox directories in either direction. |
| DeliverySteps.CancelledFiled | cmd/gang/compaction.go:148-202 | A queued continuation whose compaction failed may be filed as cancelled without an intent. |
| DeliverySteps.AbandonedMovedBack | cmd/gang/compaction.go:148-202 | A filed continuation of a failed compaction may be renamed back into `new`: nothing types it again. |
| DeliverySteps.ReceiptSaved | store/inbox.go:160-193 | Saving a receipt, with the one it replaces as awaiting removal, keeps every file named. |
| DeliverySteps.IntentSaved | cmd/gang/runtime.go:78-110 | An intent may be saved for any queued envelope when none is held. |
| DeliverySteps.IntentSettled | cmd/gang/runtime.go:507-549 | An intent may be dropped once its envelope lies in its result directory under its sole receipt. |
| DeliverySteps.Linked | store/inbox.go:43-71 | Linking a fresh envelope, or a band note no directory holds, keeps the crash invariant. |
| DeliverySteps.Typed | cmd/gang/delivery.go:323-532 | The submit key may be pressed for the held envelope while its latest publication was never typed. |
| DeliverySteps.CompactionLost | cmd/gang/compaction.go:387-412 | Saving a compaction as failed abandons its continuation at every crash point. |
| DeliverySteps.Requested | cmd/gang/messages.go:636-735 | A request nobody made before may be saved while no input is held; the note it replaces while queued is on record from then on. |
| DeliverySteps.AdmissionSaved | cmd/gang/compaction.go:58-95 | A current compaction that was never admitted and did not fail may be admitted, once. |
| DeliverySpec.SettledNames | store/inbox.go:160-215 | After filing, the envelope lies where its outcome says and the record names it by that receipt alone. |
| DeliverySpec.ResetMeans | cmd/gang/context_bands.go:107-152 | A context reset removes exactly the queued band notices and drops stale stamps; every other file stays. |
| DeliverySpec.CompletionAllowed | cmd/gang/recover.go:496-522 | A witnessed end completes exactly the compaction that was submitted before it. |
| DeliverySpec.WithheldIsUndelivered | cmd/gang/recover.go:496-522 | A continuation withheld at the end of its compaction was not delivered, so failing that compaction is never an error. |
| DeliverySpec.FailTraceEnds | cmd/gang/compaction.go:387-412 | The writes of a failing compaction, one after the other, end in the failed state, or in the saved record alone when the continuation was delivered. |
| DeliverySpec.ListingIsMail | store/inbox.go:97-139 | A queue has one listing, whatever order its directory is read in. |
| DeliverySpec.PickIsFirst | cmd/gang/delivery.go:658-687 | What a turn takes up is reserved with no reserved mail before it, or due with no due mail before it and none reserved; it takes up nothing exactly when there is no such mail. |
| DeliverySpec.StuckIsPicked | cmd/gang/delivery.go:609-781 | A turn comes upon a resume note it may not type exactly when one is stuck: unreserved, due, unexpired, nothing reserved and no due mail older. |
| DeliverySpec.ReadErrorIff | cmd/gang/late_witness.go:13-70 | Late reconciliation fails exactly when, in the order it looks, the record names a continuation that was moved back after its compaction failed. |
| DeliveryMeaning.LateMeans | cmd/gang/late_witness.go:13-70 | Late proof rests on the prompt the hook reported: if it repeats no named receipt nothing changes; what becomes delivered was unverified or accepted, no younger than the hook, and repeated by its prompt; and such a receipt, the failed one first, does become delivered, with no other file changed. |
| DeliveryMeaning.CompletedResumeIff | cmd/gang/recover.go:526-535 | The continuation the record awaits is the one that was published, with at most a stamp added, of a compaction that completed after it started and was not admitted yet. |
| DeliveryMeaning.PublishedIsAwaited | cmd/gang/recover.go:526-558 | What is published for a compaction is what is awaited once that compaction completed. |
| DeliveryMeaning.AwaitedIsTaken | cmd/gang/recover.go:496-535 | An awaited continuation is what the next turn takes up, or startup input before it; going on with the compaction leaves it alone. |
| DeliveryMeaning.ContinuedFields | cmd/gang/recover.go:496-522 | Going on with a compaction does nothing before its end is known; then it is completed if its continuation is queued as published and unadmitted, or was entered and is gone, and failed otherwise. |
| DeliveryFields.FiledFields | store/inbox.go:200-215 | A filed result lies in `cur` exactly if it was accepted or delivered, says so with its reason and keeps its text. |
| DeliveryFields.SettledFields | store/inbox.go:160-193 | A result is remembered as the latest of its kind, delivered, accepted or neither, and as nothing else; the file of the receipt it replaces is removed, and no other receipt is forgotten. |
| DeliveryFields.InputDoneFields | core/step.go:39-52 | An input that is done shows the agent busy when it was delivered or accepted, unknown when unverified and as before when it failed; only a delivered one counts as submitted. |
| DeliveryFields.StampFields | cmd/gang/context_stamp.go:101-156 | The first attempt stamps the oldest pending crossings that fit; a stamp once given stays. |
| DeliveryFields.AttemptFields | cmd/gang/delivery.go:323-532 | What an attempt leaves of its envelope: failed by a hazard or a withdrawn paste, unverified when its paste stays staged, and otherwise the result that was seen; its text is kept and a begun startup paste marked. |
| DeliveryFields.PickFields | cmd/gang/delivery.go:658-687 | A turn takes up the oldest startup input or awaited continuation, and otherwise the oldest envelope whose time has come and not passed. |
| DeliveryFields.SweepFields | cmd/gang/delivery.go:666-687 | Taking up mail withdraws expired mail only, and all of it that is older than what is taken up. |
| DeliveryFields.TurnFields | cmd/gang/delivery.go:609-781 | One turn, whatever it takes up: when nothing happens, and otherwise that the drain ends exactly when the paste was withdrawn, or a continuation stays unverified, and goes on in every other case. |
| DeliveryFields.ResetFields | cmd/gang/context_bands.go:107-137 | A context reset takes away exactly the queued notices of crossings, and the stamp of queued mail that was not pasted. |
| DeliveryFields.DeadlineFields | core/step.go:123-137 | Which deadlines have passed and what that changes: a boot fails, an interrupt is wedged, a submitted compaction is unverified. |
| DeliveryFields.RequestFields | cmd/gang/messages.go:710-735 | A fresh request is queued with what was asked for and 30 seconds to run. |
| DeliveryFields.CarriedFields | cmd/gang/compaction.go:459-503 | A start whose submit key is uncertain leaves the request unverified with its reason; one whose draft was withdrawn leaves it queued with the reason it waits; neither touches a file. |
| DeliveryFields.AcceptedFields | cmd/gang/messages.go:636-709 | When a request is accepted, by the status of the earlier compaction. |
| DeliveryFields.InterruptFields | cmd/gang/compaction.go:742-841 | What an operator may stop, by the status of the compaction, and what becomes of it. |
| DeliveryFields.RecoveryFields | cmd/gang/runtime.go:452-506 | A predecessor's compaction is left unverified, one it was recovering counts as recovered, and the effect of its interrupt is unknown. |
| DeliveryFields.RecoveredFields | cmd/gang/runtime.go:452-506 | A predecessor's envelope is filed as accepted if it was, and otherwise as unverified with a reason that says its owner is gone. |
| DeliveryFields.FailureFields | cmd/gang/compaction.go:387-412 | A failed compaction says why in the record and in the notice to its agent. |
| DeliveryFields.CancelledFields | cmd/gang/compaction.go:148-202 | A cancelled continuation lies in `failed`, says why and keeps its text. |
| DeliveryFields.BandFields | cmd/gang/context_bands.go:61-103 | A crossing's note goes to the agent itself under the next number, with its own message. |
| DeliveryFields.NotesGoOut | cmd/gang/context_bands.go:107-152 | After publishing, every pending crossing that waited five seconds has a file, and no reset is owed. |
| DeliveryDrains.StoppedTurn | cmd/gang/delivery.go:609-781 | A turn that finds the composer taken, or meets a retained failed startup, types nothing, ends the drain and leaves every envelope that has not expired where it is. |
| DeliveryDrains.DrainsPlain | cmd/gang/delivery.go:609-781 | On a queue of due ordinary mail, turns that find the composer free and do not withdraw their paste take one envelope each until the queue or the turns are used up; each envelope that leaves the queue was typed once, if it was submitted, and none is typed twice. |
| DeliveryDrains.WithdrawnPasteEnds | cmd/gang/delivery.go:750-781 | A paste that was withdrawn ends the drain: its envelope is filed as failed, nothing is typed and the others wait. |
| Delivery.Owner.Write | cmd/gang/compaction.go:148-202 | One durable write. Whatever the operation, it maroons a note only by saving its compaction as failed, by taking it back after that, or by a request that replaces its compaction; and it makes the record name a marooned note only by taking it back. |
| Delivery.Owner.CleanResult | store/inbox.go:140-156 | The replaced receipt is removed and forgotten; nothing else changes. |
| Delivery.Owner.FileResult | store/inbox.go:200-215 | The closed envelope is written to `new` and renamed to its result directory; a crash between leaves it queued and closed. |
| Delivery.Owner.Settle | store/inbox.go:160-193 | Cleanup, filing and receipt in that order end in one named receipt; the state after a crash behind the rename is stated too. |
| Delivery.Owner.Apply | cmd/gang/runtime.go:78-110 | A transition is saved before the owner adopts it; a refused or unsaved one changes neither. |
| Delivery.Owner.SettleContextStamp | cmd/gang/context_stamp.go:158-176 | A delivered stamp withdraws exactly the queued notes it carried and drops their crossings from the record. |
| Delivery.Owner.SettleReceipt | cmd/gang/runtime.go:553-577 | A typed envelope gets its receipt and its stamp settled under the same intent. |
| Delivery.Owner.FinishInput | cmd/gang/runtime.go:507-549 | After the receipt the intent is dropped; the whole disk is the one the specification gives. |
| Delivery.Owner.RecoverInput | cmd/gang/runtime.go:452-506 | A predecessor's intent of any kind is settled without a key press; an interrupt or compaction intent moves no file. |
| Delivery.Owner.RecoverEnvelope | cmd/gang/runtime.go:452-506 | A held envelope is moved back and filed again, accepted if it was accepted and unverified otherwise. |
| Delivery.Owner.ReopenReceipt | cmd/gang/late_witness.go:76-91 | A retained receipt is taken back under a fresh intent saved first. |
| Delivery.Owner.ReconcileDelivery | cmd/gang/late_witness.go:13-70 | Late hook proof settles the failed receipt first, then the accepted one, and only one whose prompt the hook repeats, that is no younger than the hook and was unverified or accepted: it ends delivered and no other file changes. Without such a receipt nothing changes. It fails for a living owner exactly when a receipt it comes to is missing. |
| Delivery.Owner.Confirm | cmd/gang/late_witness.go:13-91 | A proved receipt ends as delivered, and nothing is typed. |
| Delivery.Owner.CancelPendingResume | cmd/gang/compaction.go:148-202 | The continuation of a failed compaction ends cancelled wherever it was; the disk after every single write is stated, and a living owner fails exactly when the note was delivered. |
| Delivery.Owner.TakeBack | cmd/gang/compaction.go:169-190 | A filed continuation goes back into `new` and the record forgets it, in two writes whose crash point is stated. |
| Delivery.Owner.FileCancelled | cmd/gang/compaction.go:185-202 | Filing a note as cancelled names it exactly when no other failure is named; the disk after every write is stated. |
| Delivery.Owner.PublishOnce | cmd/gang/recover.go:471-494 | An envelope is linked exactly when no directory holds its ID. |
| Delivery.Owner.FailCompaction | cmd/gang/compaction.go:387-412 | The record, the cancellation and the notice, with the state after every write; a living owner fails exactly when the continuation was delivered. Nothing is typed or admitted. |
| Delivery.Owner.ContinueCompaction | cmd/gang/recover.go:496-522 | Nothing happens before the end is known; then the compaction is completed if its continuation is in order and failed otherwise; a living owner always gets through. |
| Delivery.Owner.ListNew | store/inbox.go:97-139 | The listing is the one listing of the queue: every queued envelope once, by time and then identity. |
| Delivery.Owner.DiscardQueuedNotes | cmd/gang/context_bands.go:107-152 | Withdraws exactly the queued band notices and stale stamps. |
| Delivery.Owner.PublishContextNotes | cmd/gang/context_bands.go:107-152 | After a reset nothing stale is left in the queue; every pending note that waited long enough and has no file is linked; nothing else changes. |
| Delivery.Owner.ReconcileCompactionWitness | cmd/gang/compaction.go:122-146 | A newer witness saves the proof for the current compaction if it was submitted before, forgets the crossings of the old context, resets the queue and lets the continuation go on; an old one changes nothing. |
| Delivery.Owner.CheckDeadlinesLocked | cmd/gang/runtime.go:291-353 | After the check no deadline is left to settle at that time. |
| Delivery.Owner.Acquire | cmd/gang/runtime.go:197-245 | A new owner cleans, recovers, reconciles and continues without pressing the submit key and ends with no intent in the stated state: no overdue or undecided compaction, every owed note out. A living one fails exactly when, once it recovered, a readable hook meets a dangling record. |
| Delivery.Owner.BringUpToDate | cmd/gang/runtime.go:222-245 | Witness, notes and compaction are brought up to date in that order; a living owner gets through, and remembers the newest witnessed end. |
| Delivery.Owner.StampEnvelope | cmd/gang/context_stamp.go:101-156 | The stamp is saved with the queued envelope before anything is typed. |
| Delivery.Owner.TypeInput | cmd/gang/delivery.go:424-532 | One key press at most, counted before its result is filed. |
| Delivery.Owner.Attempt | cmd/gang/delivery.go:424-532 | Stamp, intent, key press and filed result end in the stated disk, with the compaction untouched. |
| Delivery.Owner.Deliver | cmd/gang/delivery.go:323-532 | One attempt and, when it stays unverified, the late proof, which makes it delivered if the hook repeats it; the key is pressed for one publication that was never typed, and a living owner fails exactly when a receipt is missing. |
| Delivery.Owner.FirstReserved | cmd/gang/delivery.go:658-665 | Finds the first reserved envelope: the continuation the record awaits, or startup input. |
| Delivery.Owner.FirstDue | cmd/gang/delivery.go:666-687 | Finds the oldest due envelope and withdraws exactly the expired ones before it. |
| Delivery.Owner.TakeUp | cmd/gang/delivery.go:658-687 | One turn takes up the first reserved envelope, or the oldest due one with the expired ones before it withdrawn, or nothing. |
| Delivery.Owner.DrainTurns | cmd/gang/delivery.go:609-781 | A turn with the composer taken, or that meets a retained failed startup, presses no key and ends the drain. Turns that go on take one envelope each of a plain queue until it is empty, and what they submit is typed once; a withdrawn paste ends it. While a resume note is stuck nothing changes outside. |
| Delivery.Owner.TakeTurn | cmd/gang/delivery.go:640-781 | One turn takes up one envelope and attempts it, or ends the drain; it presses at most one key, and none when the composer is taken. |
| Delivery.Owner.DrainLocked | cmd/gang/delivery.go:609-781 | Deadlines, the compaction, then the turns of an active agent: with a free composer and plain mail one envelope a turn until the queue is empty, with a taken one nothing. A living owner fails exactly when a receipt is missing. |
| Delivery.Owner.RequestCompaction | cmd/gang/messages.go:592-735 | A request is saved exactly when the agent is active, its startup is proved and no earlier continuation is known to be on its way: queued for the current compaction, unadmitted within the operation timeout, or unadmitted while the harness still compacts. |
| Delivery.Owner.PublishResume | cmd/gang/recover.go:537-558 | The continuation is linked once, with the text and the sender that were asked for, to this agent, under a token the record keeps; the state after every write is stated, and a living owner always gets through. |
| Delivery.Owner.LinkResume | cmd/gang/recover.go:549-557 | The link and then the record that remembers it; a process that dies in between leaves a queued note the record does not know of. |
| Delivery.Owner.QueueResume | cmd/gang/compaction.go:207-277 | The continuation is published, held and typed once behind the compact command, or its error is the one of the first step that failed. |
| Delivery.Owner.TypeResume | cmd/gang/compaction.go:221-277 | The queued continuation is typed once behind the compact command, filed as accepted or unverified, and given its late proof; a failed key press and a missing receipt are its errors. |
| Delivery.Owner.NoteWait | cmd/gang/messages.go:770-812 | What a queued compaction waits for is saved once, and only when it changed. |
| Delivery.Owner.CarryOut | cmd/gang/messages.go:825-929 | Past its intent a compaction is failed, taken back, left unverified or submitted, according to how far it got. |
| Delivery.Owner.Submit | cmd/gang/messages.go:905-929 | Past its submit key a compaction is no longer queued, and ends as a lived-through start does. |
| Delivery.Owner.EnterContinuation | cmd/gang/messages.go:908-929 | Past its submit key it enters the continuation, or fails with the error that stopped it; then it fails exactly if the screen shows a refusal and nothing is known of its end. |
| Delivery.Owner.LookOn | cmd/gang/messages.go:918-929 | What follows the submit key: a refusal on screen fails the compaction while nothing is known of its end, and no refusal leaves it running. |
| Delivery.Owner.StartCompaction | cmd/gang/messages.go:756-929 | A queued compaction of an active agent starts once. A start that is lived through leaves the note out of the queue and pressed at most once. The request is still queued, unverified or failed according to how far it got; past the submit key it failed exactly if the continuation was not entered or the screen shows a refusal, and is submitted otherwise; and it failed only with its note filed and one notice, or with its note delivered. |
| Delivery.Owner.DeferDraft | cmd/gang/compaction.go:459-503 | A withdrawn draft drops the intent and leaves the request queued, with the reason it waits. |
| Delivery.Owner.AdmitResume | cmd/gang/compaction.go:20-95 | A living owner admits a prompt exactly when it is the awaited one, of this session, the compaction has a token and was not admitted, and it completed after it started, or is submitted or unverified with its continuation entered. An altered prompt is not admitted: one that heads the continuation fails the compaction, any other changes nothing. |
| Delivery.Owner.InterruptCompaction | cmd/gang/compaction.go:742-841 | Exactly a queued request or a running compaction whose continuation waits can be stopped: the one is taken back, the other interrupted once and left unverified. |
| Delivery.Owner.ObserveCompaction | cmd/gang/compaction.go:355-371 | A running compaction with a proved end goes on; of any other a fresh refusal on screen saves the failure, and without a refusal nothing changes. |
| Delivery.Owner.NoteBand | cmd/gang/context_bands.go:61-103 | A crossing appends one note under the next sequence number. |
| Delivery.Owner.PublishNew | store/inbox.go:43-71 | A sender's fresh message is queued as it is, without the agent's lock. |
| DeliveryTheorems.TypedAtMostOnce | cmd/gang/delivery.go:323-532 | At every crash point each envelope was typed at most once per link, and at most once in all unless it is a band note. |
| DeliveryTheorems.NextIsUntyped | cmd/gang/delivery.go:609-781 | Whatever a drain would type next was not typed since it was published. |
| DeliveryTheorems.SettledMeans | store/inbox.go:160-215 | Filing a result moves one file, removes at most the receipt it replaces and leaves every other file alone. |
| DeliveryTheorems.RecoveredMeans | cmd/gang/runtime.go:452-506 | Recovery ends with the predecessor's envelope in the right directory under its sole receipt, wherever the crash left it. |
| DeliveryTheorems.FinishedMeans | cmd/gang/runtime.go:507-577 | A finished input leaves no intent and one sole receipt. |
| DeliveryTheorems.StampMeans | cmd/gang/context_stamp.go:158-176 | A delivered stamp settles exactly the crossings it carried: no longer pending, their queued notes withdrawn but for the envelope itself, everything else as it was. |
| DeliveryTheorems.ConfirmedMeans | cmd/gang/late_witness.go:13-91 | A proved receipt ends delivered, in `cur`, as its envelope's only receipt. |
| DeliveryTheorems.CancelledMeans | cmd/gang/compaction.go:148-202 | A cancelled continuation lies in `failed` and is named unless another failure is retained; every other file is as it was. |
| DeliveryTheorems.LostMeans | cmd/gang/compaction.go:387-412 | A failed compaction ends with its continuation filed, one notice linked and queued, nothing typed, and every other file as it was. |
| DeliveryTheorems.ContinuedMeans | cmd/gang/recover.go:496-522 | Afterwards no proved end waits to be recorded, and no completed compaction has an altered continuation or one that was not entered. |
| DeliveryTheorems.WitnessedMeans | cmd/gang/compaction.go:122-146 | A newer witness is remembered, leaves no crossing of the old context pending and no notice of one queued, and ends a compaction submitted before it; an older one changes nothing. |
| DeliveryTheorems.LostDoneMeans | cmd/gang/compaction.go:387-412 | Failing a compaction, with or without a note, ends with the note out of the queue and one notice in it, or is an error that leaves a delivered note where it is. |
| DeliveryTheorems.ContinuedEnds | cmd/gang/recover.go:496-522 | Going on with a compaction only records its proved end, or fails it cleanly. |
| DeliveryTheorems.ObservationEnds | cmd/gang/compaction.go:355-371 | Looking at a compaction on screen does the same, or fails it with its note delivered. |
| DeliveryTheorems.ReceiptsBounded | store/inbox.go:140-215 | Between owners `cur` holds at most two receipts, and `failed` the latest failure beside the orphans: cancelled continuations, at most one for each compaction that ever failed. |
| DeliveryTheorems.OrphanStays | cmd/gang/compaction.go:148-202 | A receipt nothing names is a cancelled continuation, and no later filing removes or names it. |
| DeliveryTheorems.OrphanIff | cmd/gang/compaction.go:148-202 | At every crash point of a failing compaction, and for an owner that lives through it, the continuation is an orphan exactly when it was just filed, or is filed while another failure keeps its receipt. |
| DeliveryTheorems.DanglingIff | cmd/gang/compaction.go:169-184 | Such a crash point leaves the record dangling exactly when a filed continuation was just taken back, unless another retained failure is proved first. |
| DeliveryTheorems.DanglesByTakingBack | cmd/gang/compaction.go:169-184 | No write of any other operation makes a record dangle: the one that does takes a named note of a failed compaction back. |
| DeliveryTheorems.MaroonedIff | cmd/gang/compaction.go:387-412 | Among the crash points of a failing compaction, its note is marooned exactly at those between the saved failure and the filing of the note. |
| DeliveryTheorems.RequestMaroonsIff | cmd/gang/messages.go:636-735 | A request maroons exactly one note: that of the current compaction, if it is queued and that compaction has not failed. |
| DeliveryTheorems.MaroonedMeans | cmd/gang/compaction.go:148-202 | At every crash point of every operation the marooned notes are exactly those a request replaced while they were queued, and those queued and unheld although their compaction was saved as failed. |
| DeliveryTheorems.MaroonedHolds | cmd/gang/delivery.go:609-781 | A drain never takes a marooned note out of the way: what it takes up is reserved, older, or the note itself. |
| DeliveryTheorems.MaroonedIsStuckIff | cmd/gang/delivery.go:609-781 | A marooned note is stuck exactly when no mail is reserved and no due mail is older. |
| DeliveryTheorems.RequestKeepsStuck | cmd/gang/messages.go:592-735 | Requesting another compaction frees nothing: a note stuck before it is stuck after it. |
| DeliveryTheorems.TurnHeldBackIff | cmd/gang/delivery.go:609-781 | With a free composer and a proved startup, a turn that has mail to take up is held back exactly when a resume note is stuck. |
| DeliveryTheorems.TurnTypesUnlessStuck | cmd/gang/delivery.go:609-781 | A turn that comes upon a stuck note types nothing and ends the drain; any other that gets as far as the submit key presses it. |
| DeliveryTheorems.FailedIsFinal | cmd/gang/compaction.go:20-47 | A compaction once saved as failed stays failed while it is current: every prompt is blocked and its continuation is never reserved. |
| DeliveryTheorems.NoteRepublishedIff | cmd/gang/context_bands.go:140-152 | Exactly when a pending band note is linked again. |
| DeliveryTheorems.NoteTypedAgain | cmd/gang/context_bands.go:105-152 | An unverified note loses its receipt to the next failure while it is pending and is then queued again. |
| DeliveryRuns.Run | cmd/gang/delivery.go:323-925 | Over any processes, each doing any number of things under its lock and dying after any write: typed at most once per link, admitted at most once per compaction, bounded receipts, a history that is never taken back, a marooned note never typed, cancelled or withdrawn, and none marooned but those whose compaction failed or a request replaced. |
| DeliveryRuns.RunSession | cmd/gang/recover.go:16-316 | One process takes the lock and drains, requests, starts, continues, observes, admits, interrupts and notes in any order; what is marooned when it starts is marooned when it ends. |
| DeliveryRuns.NoteReplaced | cmd/gang/recover.go:537-558 | A concrete run in which no compaction fails and a note is marooned and stuck: the process dies right after the link, the deadline passes, and the next request is accepted. |
| DeliveryRuns.StaysWedged | cmd/gang/runtime.go:197-245 | Taking the lock again never repairs a dangling record: the state stays the same over any number of attempts. |
| DeliveryRuns.BandNoteTypedTwice | cmd/gang/context_bands.go:105-152 | A concrete run without any crash in which one band note gets the submit key twice. |
| WakeUp.StepKeeps | cmd/gang/delivery.go:856-915 | Every step of every process keeps: unseen due mail has a process that will look. |
| WakeUp.ReachedKeeps | cmd/gang/delivery.go:856-915 | The invariant holds in every reachable state of every interleaving. |
| WakeUp.NoLostWakeUp | cmd/gang/delivery.go:856-915 | Once nobody is left to look, every due queued envelope was listed by a drain after it was published. |
| WakeUp.FoundInFour | cmd/gang/delivery.go:856-915 | A wake-up is at hand: whenever due mail is queued that no drain listed, four steps of the processes that are there get it listed, with no other publication. |
| WakeUp.QuietEnds | cmd/gang/delivery.go:856-915 | Whoever checks the queue after it unlocked and finds no due mail but what it left waiting is done, and starts no tick. |
| WakeUp.OneOwner | cmd/gang/runtime.go:249-284 | At most one process owns the lock. |
| WakeUp.UnlockAloneLoses | cmd/gang/runtime.go:249-284 | Unlocking without the recheck would lose a wake-up: a concrete interleaving. |
| IdleLedger.LockedIdle.Read | store/team_idle.go:84-137 | The loops resolve the pending intent against the three directories and then drop dead registrations: afterwards nothing is pending, each live recipient's counter is as before, or one more if the pending file was found, and no other is left. A counter at its 64-bit maximum is an error that saves nothing. |
| IdleLedger.StepKeeps | store/team_idle.go:163-200 | Every step, including a crash, keeps the ledger exact for live recipients. |
| IdleLedger.ReachedKeeps | store/team_idle.go:84-200 | The ledger is exact in every reachable state. |
| IdleLedger.CountedExactlyOnce | store/team_idle.go:84-200 | Work counted plus one for an unresolved intent whose file exists equals the links made, under every crash and interleaving. |
| IdleLedger.DeleteKeepsIff | store/inbox.go:216-236 | Deleting a file keeps the count exactly when it is not the pending one. |
| IdleLedger.ClearingCanLoseACount | store/inbox.go:216-236 | If a link falls between the resolution and the listing of a clear, one count is lost: a concrete run. |
| NameClaims.Store.ClaimName | store/store.go:69-83 | A claim is refused exactly when the name is held by then, and otherwise gives this agent that name and changes nothing else. |
| NameClaims.Store.RemoveName | store/store.go:97-112 | The name is removed exactly when it resolves to this agent, and nothing else is. |
| NameClaims.Store.TakeName | store/store.go:230-239 | The new name ends as this agent's claim unless it was taken: held by a rival at the look-up, or free then and held at the claim. |
| NameClaims.Store.TurnOver | store/store.go:249-257 | The record adopts the claimed name, the old one is released, and the record forgets the rename; a crash leaves one of the two records in between. |
| NameClaims.Store.FinishRename | store/store.go:230-258 | From any point a predecessor reached, a rename ends with one claim: the old name exactly when the new one was taken. At every crash point the saved name resolves, and no quiet rival gains or loses a name. |
| NameClaims.Store.Rename | cmd/gang/hitches.go:767-808 | The intent is saved before any claim changes; the old name is kept exactly when the new one was taken after that. With no rivals about, the claims change by exactly the old name for the new. |
| NameClaims.RenameUntilDone | store/store.go:230-258 | Any number of owners dying mid-rename and one that lives end with exactly one claim: the old name exactly when an owner found the new one taken and said so. A rival that keeps the name all along makes it so, and only a rival that held or sought it can; without rivals it is so exactly when another agent holds the name. |
| NameClaims.TakenMeans | store/store.go:230-239 | A name this agent holds is not taken; one a rival keeps is; a taken one was held or sought by a rival. |
| NameClaims.TurnIsRival | store/store.go:69-112 | Every write of any agent's rename is, for every other agent, one of the rival steps the renames were proved against. |
| NameClaims.TurnKeeps | store/store.go:230-258 | Every write of any agent's rename keeps every agent's claims in order. |
| NameClaims.EachListedOnce | store/store.go:187-229 | Whatever writes the agents of a team make to rename, interleaved and broken off anywhere, the listing shows each agent, and no name twice. |
| SessionBinding.LockedAgent.Bind | store/lock.go:84-89 | A binding is appended, also when the append reports a failure afterwards. |
| SessionBinding.LockedAgent.Save | store/lock.go:53-83 | A session with a transcript is logged before the record that holds it is replaced; one without an identity or a transcript is not logged and keeps the known binding; a fault leaves the record as it was. |
| SessionBinding.LockedAgent.ReadBound | store/lock.go:53-70 | The first save of a holder binds the saved session exactly when the log misses it. |
| SessionBinding.Run | store/lock.go:53-89 | Over any saves, faults and hand-overs no replaced confirmed session is missing from the log. |
| SessionBinding.ResaveIsQuiet | store/lock.go:53-89 | Saving the same session again logs nothing. |
| SessionBinding.ChangeIsLoggedOnce | store/lock.go:53-89 | A changed session is logged once and names the one it follows. |
| StatusHooks.Journal.NextSequence | store/hooks.go:37-76 | The scan finds the greatest number used, or that a newer observation is shown. |
| StatusHooks.Journal.WriteStatusHook | store/hooks.go:37-76 | An observation is refused exactly when a later one of its kind is shown and it is no boundary; otherwise it goes under the next number, and the journal stays true to everything ever recorded. |
| StatusHooks.WriteMeans | store/hooks.go:52-76 | A turn that finished or failed and a compaction that finished are never stale and stay until acknowledged; a record of any other kind takes the place of an earlier one. |
| StatusHooks.Journal.Acknowledge | cmd/gang/status_hooks.go:113-122 | Acknowledgment only moves forward. |
| StatusHooks.Journal.LatestOfKinds | store/hooks.go:92-116 | The map holds exactly the last number of each kind. |
| StatusHooks.Journal.PruneStatusHooks | store/hooks.go:92-116 | Pruning keeps exactly the records above the given number and those with no later one of their kind. |
| StatusHooks.WriteKeeps | store/hooks.go:37-76 | Numbers grow and are never reused, unacknowledged boundaries are all kept, every other kind shows its latest reading once. |
| StatusHooks.PruneKeeps | store/hooks.go:92-116 | Pruning up to an acknowledged number loses none of that. |
| StatusHooks.PruneMeans | store/hooks.go:92-116 | What is kept is kept in order: the unsettled records and, of each kind, the one with the greatest number. |
| StatusHooks.PrunedIsSmall | store/hooks.go:92-116 | After a prune at most seven settled records are left. |
| OutsideSend.Mailbox.Put | store/outside.go:99-104 | An intent is saved whole or not at all. |
| OutsideSend.Mailbox.PublishNew | store/inbox.go:43-71 | One link, or none, or one whose error hides it. |
| OutsideSend.Mailbox.Send | cmd/gang/outside.go:138-268 | Settled and other keys are untouched, a receipt is repeated as saved, a different send is refused, nothing is linked after an earlier attempt, and the outcome is unknown exactly when an attempt was made and no file remains. |
| OutsideSend.Mailbox.Settle | cmd/gang/outside.go:204-261 | The same for an intent without a receipt: what a queued answer implies of the recipient, and which refusal comes first, in the program's order. |
| OutsideSend.OneLinkPerKey | cmd/gang/outside.go:138-268 | One key links at most one envelope, once. |
| OutsideSend.ReceiptMeans | cmd/gang/outside.go:244-261 | A queued receipt means the link happened; an unknown one means it did not or its file was pruned; the log holds the message either way. |
| OutsideSend.Run | cmd/gang/outside.go:138-268 | Over any calls, faults, crashes and pruning every answer for one key is the same receipt, for one request. |
| OutsideSend.SaveKeeps | cmd/gang/outside.go:163-199 | A key's first intent may be saved under a fresh ID. |
| OutsideSend.LinkKeeps | cmd/gang/outside.go:238-247 | A link is allowed only for an attempted intent not linked before. |
| OutsideSend.SettleKeeps | cmd/gang/outside.go:250-260 | A receipt may replace the envelope once the log holds the message and its outcome is true. |
| Defang.DefangTags | cmd/gang/input.go:145-194 | The scan with its pending stack, copied index and builder computes the block-by-block specification. |
| Defang.FirstExposed | cmd/gang/input.go:171-175 | The inner loop finds how many enclosing openers a deletion would expose. |
| Defang.CopyWithout | cmd/gang/input.go:176-182 | The copying loop leaves out exactly those openers. |
| Defang.DefangedIsTagFree | cmd/gang/input.go:145-194 | Afterwards no opening bracket opens a tag, whatever text its deletions joined. |
| Defang.TagMeans | cmd/gang/input.go:100-143 | What opens a tag, part by part: an opening bracket and, up to the next bracket and invisible runes aside, spaces, at most one slash, spaces, the four letters or their lookalikes, spaces and a separator. |
| Defang.DefangedThins | cmd/gang/input.go:145-194 | Only opening brackets are deleted; everything else stays in order. |
| Defang.UntouchedIff | cmd/gang/input.go:145-194 | A body is left alone exactly when nothing in it opens a tag. |
| Defang.Idempotent | cmd/gang/input.go:145-194 | Defanging twice is defanging once. |
| Defang.EveryDeletionIsNeeded | cmd/gang/input.go:169-182 | No deletion is wasted: an opener spared among those taken with a keyword would now open a tag. |
| Defang.BlankBeforeKeyword | cmd/gang/input.go:100-114 | Deleting a bracket between blank text and a keyword exposes a keyword while the two hold at most one slash. |
| Defang.SlashBeforeSlash | cmd/gang/input.go:100-114 | With a slash on both sides it exposes none. |
| Defang.FirmBeforeKeyword | cmd/gang/input.go:100-114 | A keyword joined to text that is neither blank nor a keyword makes neither. |
| Defang.EnvelopeTags | cmd/gang/input.go:197-248 | A rendered envelope opens exactly its own first and last tag. |
| PasteMatch.ConsumePastedBody | harness/hooks.go:300-313 | The scan over both texts computes the recursive matcher. |
| PasteMatch.ConsumeReads | harness/hooks.go:300-313 | A match reads the body as an escaping of the sent text and a rest. |
| PasteMatch.ConsumeUndoes | harness/hooks.go:300-313 | Every escaping that spares the text's own pairs is matched and its rest returned. |
| PasteMatch.ConsumesIff | harness/hooks.go:300-313 | The whole body is consumed exactly when it is such an escaping. |
| PasteMatch.UndoesEveryEscapeIff | harness/hooks.go:294-313 | Every way the harness may escape a text is undone exactly when the text does not hold the pair itself. |
| PasteMatch.EscapedPairIsMissed | harness/hooks.go:300-313 | A text's own pair whose opener is escaped is not recognized: the family that fails. |
| PasteMatch.UnwrapsPaste | harness/hooks.go:262-292 | The paste element, its identifier and the newlines around it are undone, leaving the text typed beside the paste. |
| PasteMatch.MatchReads | harness/hooks.go:262-292 | Conversely, a prompt is taken for a wrapped paste only if it is one: the element with an identifier free of quotes, angles and line breaks around an escaping of the sent text, with at most two newlines before it; what is left is the rest less one newline. |
| PasteMatch.PairStandsFor | harness/hooks.go:294-305 | The pair may stand for the ASCII angle and for any character outside ASCII, and for no other. |
| Options.ScanOptions | cmd/gang/flags.go:345-375 | The scanner's loop computes the word-by-word specification. |
| Options.ReadsLong | cmd/gang/flags.go:345-375 | A switch stands alone, an option with a value takes the next argument when there is one, and a value behind an equals sign stays with its flag. |
| Options.ReadsShort | cmd/gang/flags.go:359-366 | Behind one dash, a letter the command knows with a value has the rest attached exactly when the whole name is unknown and does not assign to a name of several small letters. |
| Options.ScanKeepsText | cmd/gang/flags.go:345-375 | Scanning loses no text and moves none. |
| Options.TakeTeam | cmd/gang/flags.go:385-410 | The last selector wins, every other token is kept in order, and a selector without a value or a blank team is an error. |
| Options.TeamOfMeans | cmd/gang/flags.go:389-409 | The last selector's value is the team; any selector without a value is refused, and so is a team of white space alone. |
| Options.KeptMeans | cmd/gang/flags.go:390-394 | A word stays in its place exactly when it is no selector; without a selector nothing is taken. |
| Options.TakingOutCommutes | cmd/gang/flags.go:345-410 | Scanning what is left with the command's own options gives the words without the selector, exactly when no three-dash selector took a value with it. |
| Options.FirstAgain | cmd/gang/flags.go:345-375 | A kept word, attached or with a value looked ahead for, is read again as it was. |
| Options.TookValueIsLost | cmd/gang/flags.go:345-375 | A three-dash selector with a value is read differently by the command: the family that fails. |
| AwaitPaste.AwaitPasteShown | harness/await.go:234-321 | The wait stops at the first frame where a verdict is due, with that verdict; otherwise the deadline's verdict stands: other text exactly when the last frame that read the composer held it, and a refusal only if not. |
| AwaitPaste.HeldRefusal.Held | harness/await.go:433-446 | A refusal is reported exactly when its run of frames has lasted. |
| AwaitPaste.StopsIffDue | harness/await.go:234-310 | The declarative reading, over any window of frames, agrees with the run that ends at the frame. |
| AwaitPaste.StopsMeans | harness/await.go:234-310 | What stops the wait, on the frames and the clock alone: a shown paste after the settle time, an emptied composer that stayed so after a paste was seen, other text or a refusal in every frame for the settle time and no less than 25 milliseconds, or an unreadable screen. |
| AwaitPaste.AtEndMeans | harness/await.go:296-321 | What the deadline says: a failed capture first, then other text exactly when the last frame that read the composer held it, then a refusal in the last frame. |
| AwaitPaste.WindowIff | harness/await.go:433-446 | Some window of equal readings is long enough exactly when the run that ends there is. |
| AwaitPaste.SpansTwoFrames | harness/await.go:219-310 | A refusal or other text is never acted on from a single frame. |
| TurnClose.TurnClosed | harness/turn_close.go:37-104 | The replay with its queue, claims and prompts agrees with the declarative reading of the records, and reports the last end. |
| TurnClose.MovesMean | harness/turn_close.go:56-96 | What each record does to the two counters, in its own fields. |
| TurnClose.PlainlyClosed | harness/turn_close.go:37-104 | Without queue records a turn is closed exactly when its prompt is there and a turn end is recorded that no new prompt follows. |
| TurnClose.LastEndMeans | harness/turn_close.go:68-104 | The reported close is the last turn end, interrupted exactly when the last user record of the conversation before it is the note of an interrupt. |
| TurnClose.CountIsPeak | harness/queued.go:177-192 | A counter clamped at zero and reset stands at the largest sum of any stretch that ends now and holds no reset. |
| TurnClose.CountersMean | harness/turn_close.go:56-96 | The loop's two counters are positive exactly when a dequeue is unclaimed or a prompt waits, read off the records. |
| TurnClose.EndedNext | harness/turn_close.go:70-96 | How one record changes whether the last start has ended. |
| TurnClose.ClosedIsLast | harness/turn_close.go:97-104 | In a transcript ordered by time no prompt starts or leaves the queue after the end a closed turn reports. |
| LogPaging.ReadLogMetadata | cmd/gang/log_metadata.go:94-180 | One page is the page the specification gives, or the offset is refused for the program's reason. |
| LogPaging.PageMeans | cmd/gang/log_metadata.go:94-180 | What a page says beside its records: how far it reads, where its first whole record starts, what is left unread at its end and why, and where to go on. |
| LogPaging.EntriesMean | cmd/gang/log_metadata.go:134-150 | Its records follow one another, each ends with the first line feed after its start, and no line feed is left behind the last. |
| LogPaging.GapsMean | cmd/gang/log_metadata.go:150-175 | Which gaps its records leave: unknown kinds, records that cannot be read, and times that step back behind the last record that carries one. |
| LogPaging.ScanRecords | cmd/gang/log_metadata.go:134-178 | The cursor loop collects exactly the complete records, their gaps and where the last one ends. |
| LogPaging.EntriesSplit | cmd/gang/log_metadata.go:134-178 | Reading on from where a shorter read stopped gives the rest of a longer read. |
| LogPaging.PagesAreOnePass | cmd/gang/log_metadata.go:92-180 | However budgets cut it and however the log grows, the pages hold the records up to the last Next, each once at its own offset, and Next is a record boundary. |
| LogPaging.AdvancesIff | cmd/gang/log_metadata.go:134-178 | A page advances exactly when a complete record starts at its offset and fits its budget. |
| LogPaging.StuckIsDone | cmd/gang/log_metadata.go:134-180 | When records fit, a reader that no longer advances has the single read's events, and at most an incomplete record is left. |
| InboxOrder.LessIsStrictTotal | store/inbox.go:120-137 | The comparator is irreflexive, asymmetric, transitive and total on distinct identities. |
| InboxOrder.LessMeans | store/inbox.go:120-137 | The older envelope is first; of two made at once, context notes go by their number however many digits it has, and other identities by their bytes. |
| DeliveryOrder.EarlierIsLess | store/inbox.go:120-137 | The order the drains take mail up in is that comparator, on the identities the program gives its envelopes. |
| InboxOrder.PrefixStandsTogether | store/inbox.go:120-137 | Identities that share a prefix stand together in byte order, which transitivity rests on. |
| InboxOrder.ListingIsUnique | store/inbox.go:97-139 | However the directory is read, sorting gives the same listing. |

## Left out

* Startup recovery and resubmission, the clear operation, usage state, capacity continuations
  (with the check of the last failure in the capacity event of `core.Step`), idle notices,
  sender notices, native peer transport and native-pending evidence.
* tmux, pane capture, process identity, watchdog scheduling and the parsing of screens: each is a
  parameter that says what was seen.
* The audit appends of the delivery protocol. The team log is modelled where a property is about it
  (session bindings, outside sends).
* An I/O error that is no crash inside the handler that ends `startCompaction`; it saves the
  compaction as unverified and drops the intent.
* Publishers that act between two writes of one owner in `Delivery`. They only add fresh envelopes;
  `WakeUp` and `IdleLedger` interleave them freely.
* Holders of the lock that only unlock. They rely on the watchdog; `WakeUp.UnlockAloneLoses` shows
  that the recheck is needed.
* In `Delivery` a sender's identity has the prefix `msg-`; its other prefixes matter only where
  creation times tie, and `InboxOrder` proves the comparator for all of them. Envelope tokens of
  notices, the `witnessed` field and the wording of failure notices are not kept.
* The notice to the agent that requested another's compaction, and withdrawing a staged draft from
  the composer when an interrupt clears it.
* Saves that only record what was seen on screen (activity and its evidence).
* The validation of name segments, and the wrap-around of 64-bit hook sequences.
- AgentStep.Transition: the capacity event does not check whether the last failure is that capacity's own continuation, because capacity continuations are left out.
- NameClaims.EachListedOnce: no agent is hitched or dropped while the team renames.
- Defang.DefangedIsTagFree: canonicalization is a map of single runes, so Unicode composition across a deleted bracket is not modelled.
- Defang.EnvelopeTags: the token, marker and size checks are reduced to the kinds of rune allowed.
- PasteMatch.UnwrapsPaste: the tab rewriting and the joined context-stamp line, which the program tries as variants of the sent text, are left out.
- Options.TakeTeam: a blank team is one of ASCII whitespace only, and options are not set to typed values.
- LogPaging.PagesAreOnePass: the page-local notes on tail, time order and usage continuity are not part of the comparison; the page hash is left out.
- TurnClose.TurnClosed: reading and sorting the transcript are not modelled; records come in replay order.
- OutsideSend.Mailbox.Send: registering, rotating and removing credentials, and the tick detached after a send, are left out.
- IdleLedger.CountedExactlyOnce: takes the resolution and the listing of a clear or a seal as one step; the idle window and its report are left out.
- NameClaims.Store.FinishRename: the record's other fields and hitching a new agent are left out.
- SessionBinding.LockedAgent.Save: the record's other fields are left out.
- AwaitPaste.AwaitPasteShown: frame times are nondecreasing, as a monotonic clock gives them.
