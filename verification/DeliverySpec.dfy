/** What each operation of the delivery protocol does to the disk when its process lives through
    it, stated as functions of the disk it starts from. */
module DeliverySpec {
  import opened Records
  import opened AgentStep
  import opened DeliveryState
  import opened DeliverySteps

  /** Where a process with `left` writes to live for gets in a list of states one write apart. */
  function Reached<T>(trace: seq<T>, left: Option<nat>): T
    requires trace != []
  {
    if left.Some? && left.value < |trace| then trace[left.value] else trace[|trace| - 1]
  }

  /** What is left of its writes after `n` of them. */
  function Rest(left: Option<nat>, n: nat): Option<nat> {
    match left
    case None => None
    case Some(k) => Some(if k >= n then k - n else 0)
  }

  /** It lives through `n` writes. */
  predicate Lives(left: Option<nat>, n: nat) {
    left.None? || left.value >= n
  }

  /** Two lists of states, the second from where the first ends. */
  lemma JoinTraces<T>(a: seq<T>, b: seq<T>, left: Option<nat>)
    requires a != [] && b != [] && a[|a| - 1] == b[0]
    ensures var n := |a| - 1;
            && Reached(a + b[1..], left) == (if Lives(left, n) then Reached(b, Rest(left, n)) else Reached(a, left))
            && Rest(left, |a + b[1..]| - 1) == Rest(Rest(left, n), |b| - 1)
            && (Lives(left, |a + b[1..]| - 1) <==> Lives(left, n) && Lives(Rest(left, n), |b| - 1))
            && (!Lives(left, n) ==> Rest(left, |a + b[1..]| - 1) == Rest(left, n))
            && (Lives(left, n) ==> Reached(a, left) == a[n])
  {
  }

  function InWorld(trace: seq<Disk>, w: World): (states: seq<State>)
    ensures |states| == |trace| && forall i | 0 <= i < |trace| :: states[i] == State(trace[i], w)
  {
    seq(|trace|, i requires 0 <= i < |trace| => State(trace[i], w))
  }

  function Closed(e: Envelope, outcome: Outcome, reason: string): Envelope {
    e.(outcome := outcome, reason := reason)
  }

  /** The disk once `e` lies in its result directory. */
  function FiledAs(d: Disk, e: Envelope, outcome: Outcome, reason: string): Disk {
    d.(files := d.files[e.id := File(DirectoryOf(outcome), Closed(e, outcome, reason))])
  }

  lemma FiledThere(d: Disk, e: Envelope, outcome: Outcome, reason: string)
    ensures var n := FiledAs(d, e, outcome, reason);
            && In(n, e.id, DirectoryOf(outcome)) && n.files[e.id].envelope.outcome == outcome && n.agent == d.agent
  {
  }

  function Settled(d: Disk, e: Envelope, outcome: Outcome, reason: string): Disk {
    var f := FiledAs(Cleaned(d), e, outcome, reason);
    Cleaned(f.(agent := Receipted(Forget(f.agent, e.id), outcome, e.id)))
  }

  /** The pending notes a delivered stamp does not cover. */
  function KeptNotes(notes: seq<Envelope>, crossed: set<EnvelopeID>): seq<Envelope> {
    if notes == [] then []
    else
      var kept := KeptNotes(notes[..|notes| - 1], crossed);
      if notes[|notes| - 1].id in crossed then kept else kept + [notes[|notes| - 1]]
  }

  /** The disk without the queued notes a delivered stamp covers, except the envelope itself. */
  function WithoutNotes(d: Disk, notes: seq<Envelope>, crossed: set<EnvelopeID>, id: EnvelopeID): Disk {
    if notes == [] then d
    else
      var rest := WithoutNotes(d, notes[..|notes| - 1], crossed, id);
      var note := notes[|notes| - 1];
      if note.id in crossed && note.id != id then Remove(rest, note.id, New) else rest
  }

  /** Delivery of a stamped envelope settles the crossings it carried. */
  function StampSettled(d: Disk, e: Envelope, outcome: Outcome): Disk {
    if e.stamp.None? || outcome != Delivered then d
    else
      var notes := d.agent.bands.pending;
      WithoutNotes(d, notes, e.stamp.value, e.id).(
        agent := d.agent.(bands := d.agent.bands.(pending := KeptNotes(notes, e.stamp.value))))
  }

  function OutcomeName(outcome: Outcome): string {
    match outcome
    case NoOutcome => ""
    case Accepted => "accepted"
    case Delivered => "delivered"
    case Failed => "failed"
    case Unverified => "unverified"
    case Cancelled => "cancelled"
  }

  function InputDone(a: Agent, at: Time, id: EnvelopeID, outcome: Outcome, reason: string): Agent
    requires at != 0
  {
    Applied(a, at, InputFinished(EnvelopeInput(id), OutcomeName(outcome), reason))
  }

  /** The result of the held envelope drops the intent and leaves the receipts, the crossings and the
      compaction alone. */
  lemma InputDoneEnds(a: Agent, at: Time, id: EnvelopeID, outcome: Outcome, reason: string)
    requires at != 0 && Holds(a, id) && outcome != NoOutcome
    ensures Step(a, a.id, at, InputFinished(EnvelopeInput(id), OutcomeName(outcome), reason)).Stepped?
    ensures var b := InputDone(a, at, id, outcome, reason);
            SameReceipts(a, b) && b.bands == a.bands && b.compaction == a.compaction && b.input.None?
  {
  }

  /** The disk once the typed envelope has its result and its intent is dropped. */
  function Finished(d: Disk, at: Time, e: Envelope, outcome: Outcome, reason: string): Disk
    requires at != 0
  {
    var f := StampSettled(Settled(d, e, outcome, reason), e, outcome);
    f.(agent := InputDone(f.agent, at, e.id, outcome, reason))
  }

  /** Recovery moves the held envelope back into `new` and files it again: still accepted if it
      was, otherwise unverified. It never types. */
  function Recovered(d: Disk, at: Time, id: EnvelopeID): Disk
    requires at != 0 && id in d.files
  {
    var e := d.files[id].envelope;
    Finished(Move(d, id, New), at, e,
             if e.outcome == Accepted then Accepted else Unverified,
             if e.outcome == Accepted then e.reason else OWNER_EXITED)
  }

  /** The record after a transition; one that is refused leaves it as it is. */
  function Applied(a: Agent, at: Time, e: Event): Agent {
    var r := Step(a, a.id, at, e);
    if r.Stepped? then r.agent else a
  }

  /** The disk once the intent of a process that is gone has been settled. */
  function InputRecovered(d: Disk, at: Time): Disk
    requires at != 0
  {
    match d.agent.input
    case None => d
    case Some(EnvelopeInput(id)) => if id in d.files then Recovered(d, at, id) else d
    case Some(CompactionInput(c)) => d.(agent := Applied(d.agent, at, CompactionUnconfirmed(c, OWNER_EXITED, false)))
    case Some(RecoveryInput(c)) => d.(agent := Applied(d.agent, at, CompactionUnconfirmed(c, RECOVERY_EXITED, true)))
    case Some(InterruptInput(_)) => d.(agent := d.agent.(input := None, activity := Unknown, evidence := OWNER_EXITED))
  }

  /** A submit hook's report: when it ran, and the receipts whose envelope its prompt repeats. */
  datatype Hook = Hook(at: Time, proves: set<EnvelopeID>)

  datatype Late = ReadError | NoProof | Proof(id: EnvelopeID)

  predicate Proves(hook: Hook, e: Envelope) {
    (e.outcome == Unverified || e.outcome == Accepted) && hook.at >= e.createdAt && e.id in hook.proves
  }

  /** Which retained receipt a late hook proves: the failed one first, then the accepted one. A
      receipt the record names but the inbox does not hold cannot be read. */
  function LateProof(d: Disk, hook: Option<Hook>): Late {
    if hook.None? || d.agent.input.Some? then NoProof
    else
      var failed := d.agent.lastFailed;
      if failed.Some? && !In(d, failed.value, FailedDir) then ReadError
      else if failed.Some? && Proves(hook.value, d.files[failed.value].envelope) then Proof(failed.value)
      else
        var accepted := d.agent.lastAccepted;
        if accepted.Some? && !In(d, accepted.value, Cur) then ReadError
        else if accepted.Some? && Proves(hook.value, d.files[accepted.value].envelope) then Proof(accepted.value)
        else NoProof
  }

  function InputBegun(a: Agent, at: Time, intent: Intent): Agent {
    a.(input := Some(intent), changedAt := at)
  }

  /** A receipt back in `new`, held again and named by nothing. */
  function Reopened(d: Disk, at: Time, id: EnvelopeID): Disk
    requires id in d.files
  {
    Move(d, id, New).(agent := Forget(InputBegun(d.agent, at, EnvelopeInput(id)), id))
  }

  /** Late proof settles the receipt again, as delivered. */
  function Confirmed(d: Disk, at: Time, id: EnvelopeID): Disk
    requires at != 0 && id in d.files
  {
    Finished(Reopened(d, at, id), at, d.files[id].envelope, Delivered, "")
  }

  /** The disk after late reconciliation, if it can read the receipts. */
  function LateDone(d: Disk, at: Time, hook: Option<Hook>): Disk
    requires at != 0
  {
    match LateProof(d, hook)
    case Proof(id) => if id in d.files then Confirmed(d, at, id) else d
    case _ => d
  }

  /** The result of an operation that may end in an error its process lives through. */
  datatype Done = Done(state: State, ok: bool)

  /** The continuation was delivered, so nothing can cancel it. */
  predicate NoteDelivered(d: Disk) {
    && d.agent.compaction.Some?
    && var id := ResumeNote(d.agent.compaction.value.id);
    id in d.files && d.files[id].envelope.outcome == Delivered
  }

  /** The disks that cancelling a continuation goes through, one write after the other. */
  function CancelTrace(d: Disk, c: nat, reason: string): (trace: seq<Disk>)
    ensures trace != [] && trace[0] == d
  {
    var id := ResumeNote(c);
    if id !in d.files || d.files[id].envelope.outcome == Delivered || d.files[id].envelope.id != id then [d]
    else
      var e := d.files[id].envelope;
      var taken := if d.files[id].dir == New then [d] else [d, Move(d, id, New), Move(d, id, New).(agent := Forget(d.agent, id))];
      var m := taken[|taken| - 1];
      taken + FilingTrace(m, e, reason)[1..]
  }

  /** The disks that filing a continuation as cancelled goes through; it is named only if no failure is. */
  function FilingTrace(d: Disk, e: Envelope, reason: string): (trace: seq<Disk>)
    ensures |trace| >= 3 && trace[0] == d
  {
    var filed := FiledAs(d, e, Cancelled, reason);
    var unnamed := [d, d.(files := d.files[e.id := File(New, Closed(e, Cancelled, reason))]), filed];
    if d.agent.lastFailed.Some? then unnamed
    else unnamed + [filed.(agent := Receipted(Forget(d.agent, e.id), Cancelled, e.id))]
  }

  /** Cancelling the continuation of `c`: wherever its note was filed it ends in `failed`, and
      takes the failed receipt only if no other failure is retained. */
  function ResumeCancelled(d: Disk, c: nat, reason: string): Disk {
    var id := ResumeNote(c);
    if id !in d.files then d
    else
      var e := d.files[id].envelope;
      var m := if d.files[id].dir == New then d else Move(d, id, New).(agent := Forget(d.agent, id));
      if m.agent.lastFailed.Some? then FiledAs(m, e, Cancelled, reason) else Settled(m, e, Cancelled, reason)
  }

  /** The current compaction's note has a receipt, and it was not delivered. */
  predicate Retained(d: Disk) {
    && d.agent.compaction.Some?
    && var id := ResumeNote(d.agent.compaction.value.id);
    id in d.files && d.files[id].dir != New && d.files[id].envelope.outcome != Delivered
  }

  /** The disk and the world once an envelope of a fresh or absent identity is queued. */
  function Queue(t: State, e: Envelope): State {
    if e.id in t.disk.files then t
    else State(t.disk.(files := t.disk.files[e.id := File(New, e)]), LinkCounted(t.world, e.id))
  }

  function FailureOf(d: Disk, at: Time, reason: string): Agent
    requires at != 0 && d.agent.compaction.Some?
  {
    Step(d.agent, d.agent.id, at, CompactionHasFailed(d.agent.compaction.value.id, reason)).agent
  }

  /** The notice to an agent whose resume note will not arrive. Its token is not modelled. */
  function FailureEnvelope(a: Agent, at: Time, reason: string): Envelope
    requires a.compaction.Some?
  {
    Envelope(FailureNote(a.compaction.value.id), 0, a.id, a.name, Sender(GanglineSender, "compact"),
             "Compaction failed: " + reason, Ordinary, at, 0, 0, false, false, false, None, NoOutcome, "")
  }

  /** A failed compaction: the record says so, its continuation is cancelled wherever it was,
      and the agent is sent one failure note. */
  function Lost(t: State, at: Time, reason: string): State
    requires at != 0 && t.disk.agent.compaction.Some?
  {
    var c := t.disk.agent.compaction.value.id;
    var f := t.disk.(agent := FailureOf(t.disk, at, reason));
    Queue(State(ResumeCancelled(f, c, reason), t.world.(dead := t.world.dead + {c})), FailureEnvelope(f.agent, at, reason))
  }

  /** Failing the current compaction; a continuation already delivered makes it an error. */
  function LostDone(t: State, at: Time, reason: string): Done
    requires at != 0 && t.disk.agent.compaction.Some?
  {
    if NoteDelivered(t.disk)
    then Done(State(t.disk.(agent := FailureOf(t.disk, at, reason)),
                    t.world.(dead := t.world.dead + {t.disk.agent.compaction.value.id})), false)
    else Done(Lost(t, at, reason), true)
  }

  /** The states that failing the current compaction goes through, one write after the other. */
  function FailTrace(t: State, at: Time, reason: string): (trace: seq<State>)
    requires at != 0 && t.disk.agent.compaction.Some?
    ensures |trace| >= 2 && trace[0] == t
  {
    var c := t.disk.agent.compaction.value.id;
    var f := State(t.disk.(agent := FailureOf(t.disk, at, reason)), t.world.(dead := t.world.dead + {c}));
    var cancelled := [t] + InWorld(CancelTrace(f.disk, c, reason), f.world);
    if NoteDelivered(t.disk) || FailureNote(c) in t.disk.files then cancelled
    else cancelled + [Queue(cancelled[|cancelled| - 1], FailureEnvelope(f.disk.agent, at, reason))]
  }

  predicate Proved(a: Agent) {
    && a.compaction.Some?
    && (a.compaction.value.status == Submitted || a.compaction.value.status == CompactionUnverified)
    && a.compaction.value.completedAt > a.compaction.value.startedAt
  }

  /** A compaction whose end was proved is completed at that time. */
  function Completing(a: Agent): Agent {
    if Proved(a)
    then Step(a, a.id, a.compaction.value.completedAt, CompactionCompleted(a.compaction.value.id)).agent
    else a
  }

  /** A completed compaction whose continuation was never entered, or is queued but altered. */
  predicate Withheld(d: Disk) {
    && d.agent.compaction.Some? && d.agent.compaction.value.status == Completed
    && var id := ResumeNote(d.agent.compaction.value.id);
    if In(d, id, New) then !CompletedResume(d.agent, d.files[id].envelope)
    else !d.agent.compaction.value.continuation
  }

  function Continued(t: State, at: Time): State
    requires at != 0
  {
    var n := t.(disk := t.disk.(agent := Completing(t.disk.agent)));
    if Withheld(n.disk) then Lost(n, at, NOT_ENTERED) else n
  }

  const NOT_ENTERED := "resume was not entered when compaction started; continuation withheld"

  predicate QueuedNotice(f: File) {
    f.dir == New && IsBandNotice(f.envelope)
  }

  /** Unsubmitted mail survives a context reset without its stale stamp. */
  function Restamped(f: File): File {
    if f.dir == New && !IsBandNotice(f.envelope) && f.envelope.stamp.Some? && f.envelope.stamp.value != {}
       && !f.envelope.pasteOnly
    then f.(envelope := f.envelope.(stamp := None)) else f
  }

  /** The disk after a context reset: no queued band notice, no stale stamp, and nothing else changed. */
  function ResetFiles(d: Disk): Disk {
    d.(files := map id | id in d.files && !QueuedNotice(d.files[id]) :: Restamped(d.files[id]))
  }

  /** What a context reset does to one listed envelope. */
  function Discarded(d: Disk, e: Envelope): Disk {
    if !In(d, e.id, New) || d.files[e.id].envelope != e then d
    else if IsBandNotice(e) then Remove(d, e.id, New)
    else if e.stamp.Some? && e.stamp.value != {} && !e.pasteOnly then Put(d, e.(stamp := None))
    else d
  }

  function Reset(d: Disk, listed: seq<Envelope>): Disk {
    if listed == [] then d else Discarded(Reset(d, listed[..|listed| - 1]), listed[|listed| - 1])
  }

  /** The order of the prefixes that the constructors of an identity stand for. */
  function Rank(id: EnvelopeID): nat {
    match id
    case BandNote(_) => 0
    case FailureNote(_) => 1
    case Message(_) => 2
    case ResumeNote(_) => 3
  }

  function Number(id: EnvelopeID): nat {
    match id
    case BandNote(n) => n
    case FailureNote(n) => n
    case Message(n) => n
    case ResumeNote(n) => n
  }

  /** The order of a listing: creation time, then identity. A sender's random identity is its number. */
  predicate Earlier(e: Envelope, f: Envelope) {
    if e.createdAt != f.createdAt then e.createdAt < f.createdAt
    else if Rank(e.id) != Rank(f.id) then Rank(e.id) < Rank(f.id)
    else Number(e.id) < Number(f.id)
  }

  ghost predicate Ordered(pending: seq<Envelope>) {
    forall i, j | 0 <= i < j < |pending| :: Earlier(pending[i], pending[j])
  }

  /** The queue's listing: every queued envelope once, in order. */
  ghost predicate Listing(d: Disk, pending: seq<Envelope>) {
    && (forall e <- pending :: In(d, e.id, New) && d.files[e.id].envelope == e)
    && (forall id | In(d, id, New) :: d.files[id].envelope in pending)
    && Ordered(pending)
  }

  /** The listing of the queue. */
  ghost function Mail(d: Disk): seq<Envelope> {
    if exists p :: Listing(d, p) then var p :| Listing(d, p); p else []
  }

  lemma HasFirst(q: seq<Envelope>)
    requires q != []
    ensures q[0] in q
  {
  }

  lemma FirstIsApart(p: seq<Envelope>)
    requires Ordered(p) && p != []
    ensures p == [p[0]] + p[1..] && Ordered(p[1..]) && forall e :: e in p[1..] <==> e in p && e != p[0]
  {
    assert p == [p[0]] + p[1..];
    forall k | 0 < k < |p| ensures p[k] != p[0] {
      assert Earlier(p[0], p[k]);
    }
  }

  lemma {:induction false} OrderedSame(p: seq<Envelope>, q: seq<Envelope>)
    requires Ordered(p) && Ordered(q) && forall e :: e in p <==> e in q
    ensures p == q
  {
    if p == [] {
      if q != [] {
        HasFirst(q);
        assert false;
      }
    } else {
      assert p[0] in q && q[0] in p;
      var i :| 0 <= i < |q| && q[i] == p[0];
      var j :| 0 <= j < |p| && p[j] == q[0];
      assert i == 0;
      FirstIsApart(p);
      FirstIsApart(q);
      OrderedSame(p[1..], q[1..]);
    }
  }

  /** There is one listing. */
  lemma ListingIsMail(d: Disk, pending: seq<Envelope>)
    requires Listing(d, pending)
    ensures pending == Mail(d)
  {
    var p := Mail(d);
    assert Listing(d, p);
    OrderedSame(pending, p);
  }

  function Insert(pending: seq<Envelope>, e: Envelope): seq<Envelope> {
    if pending == [] || Earlier(e, pending[0]) then [e] + pending
    else [pending[0]] + Insert(pending[1..], e)
  }

  lemma OrderedCons(first: Envelope, rest: seq<Envelope>)
    requires Ordered(rest) && forall f <- rest :: Earlier(first, f)
    ensures Ordered([first] + rest)
  {
    var all := [first] + rest;
    forall j | 0 < j < |all| ensures all[j] in rest {
      assert all[j] == rest[j - 1];
    }
  }

  lemma {:induction false} Inserted(pending: seq<Envelope>, e: Envelope)
    requires Ordered(pending) && forall f <- pending :: f.id != e.id
    ensures Ordered(Insert(pending, e))
    ensures forall f :: f in Insert(pending, e) <==> f in pending || f == e
  {
    if pending == [] {
      OrderedCons(e, pending);
    } else if Earlier(e, pending[0]) {
      forall f <- pending ensures Earlier(e, f) {
        var i :| 0 <= i < |pending| && pending[i] == f;
        assert i > 0 ==> Earlier(pending[0], f);
      }
      OrderedCons(e, pending);
    } else {
      Inserted(pending[1..], e);
      assert pending == [pending[0]] + pending[1..];
      assert pending[0] in pending && Earlier(pending[0], e);
      OrderedCons(pending[0], Insert(pending[1..], e));
    }
  }

  /** Publishing the band notes that waited long enough; one that has a file is left alone. */
  function NotesQueued(t: State, now: Time, notes: seq<Envelope>): State {
    if notes == [] then t
    else
      var rest := NotesQueued(t, now, notes[..|notes| - 1]);
      var note := notes[|notes| - 1];
      if now - note.createdAt < WATCHDOG_TIMEOUT then rest else Queue(rest, note)
  }

  /** How an attempt to type an envelope went, as far as the owner could tell. */
  datatype Verdict =
    | Hazard(reason: string)
    | NotSubmitted(cleared: bool, reason: string)
    | Sent(outcome: Outcome, reason: string)

  predicate Withdrawable(e: Envelope) {
    e.from.kind != GanglineSender && !IsStartup(e) && !IsResume(e)
  }

  function IDs(notes: seq<Envelope>): set<EnvelopeID> {
    set n <- notes :: n.id
  }

  /** The stamp an envelope carries from its first attempt on: the crossings that fit with it. */
  function Stamp(e: Envelope, notes: seq<Envelope>, fit: nat): Envelope {
    if e.stamp.Some? then e else e.(stamp := Some(IDs(notes[..if fit < |notes| then fit else |notes|])))
  }

  /** A startup paste is marked before its submit key, so that its receipt shows how far it got. */
  function Pasted(e: Envelope, v: Verdict): Envelope {
    if IsStartup(e) && !v.Hazard? then e.(pasteOnly := true) else e
  }

  function Result(e: Envelope, v: Verdict): Outcome {
    match v
    case Hazard(_) => Failed
    case NotSubmitted(cleared, _) => if cleared && Withdrawable(e) then Failed else Unverified
    case Sent(outcome, _) => outcome
  }

  /** The held envelope with the result of its attempt. */
  function TypedOnce(d: Disk, at: Time, e: Envelope, v: Verdict): Disk
    requires at != 0 && In(d, e.id, New)
  {
    Finished(Put(d, Pasted(e, v)), at, Pasted(e, v), Result(e, v), v.reason)
  }

  /** One attempt: stamp, intent, submit key, result. */
  function Attempted(d: Disk, at: Time, e: Envelope, fit: nat, v: Verdict): Disk
    requires at != 0 && In(d, e.id, New)
  {
    var stamped := Stamp(e, d.agent.bands.pending, fit);
    TypedOnce(Put(d, stamped).(agent := InputBegun(d.agent, at, EnvelopeInput(e.id))), at, stamped, v)
  }

  predicate Expired(e: Envelope, now: Time) {
    e.notAfter != 0 && e.notAfter <= now
  }

  predicate Due(e: Envelope, now: Time) {
    e.notBefore <= now
  }

  /** Mail that goes ahead of the queue: the reserved continuation and startup input. */
  predicate Reserved(a: Agent, e: Envelope) {
    CompletedResume(a, e) || IsStartup(e)
  }

  /** One turn of a drain: whether the composer was free, and how the attempt went. */
  datatype Turn = Turn(free: bool, fit: nat, verdict: Verdict, late: Option<Hook>)

  predicate FailedStartup(d: Disk) {
    && d.agent.lastFailed.Some? && In(d, d.agent.lastFailed.value, FailedDir)
    && IsStartup(d.files[d.agent.lastFailed.value].envelope)
  }

  /** The first reserved envelope of a listing, or its length. */
  function ReservedIn(a: Agent, pending: seq<Envelope>): (n: nat)
    ensures n <= |pending| && (n < |pending| ==> Reserved(a, pending[n]))
    ensures forall i | 0 <= i < n :: !Reserved(a, pending[i])
  {
    if pending == [] || Reserved(a, pending[0]) then 0
    else
      assert forall i | 0 < i < |pending| :: pending[i] == pending[1..][i - 1];
      1 + ReservedIn(a, pending[1..])
  }

  /** The first envelope of a listing that is due and has not expired, or its length. */
  function DueIn(pending: seq<Envelope>, now: Time): (n: nat)
    ensures n <= |pending| && (n < |pending| ==> Due(pending[n], now) && !Expired(pending[n], now))
    ensures forall i | 0 <= i < n :: !Due(pending[i], now) || Expired(pending[i], now)
  {
    if pending == [] || (Due(pending[0], now) && !Expired(pending[0], now)) then 0
    else
      assert forall i | 0 < i < |pending| :: pending[i] == pending[1..][i - 1];
      1 + DueIn(pending[1..], now)
  }

  /** The disk without the first `n` listed envelopes that expired. */
  function WithoutExpired(d: Disk, pending: seq<Envelope>, n: nat, now: Time): Disk
    requires n <= |pending|
  {
    if n == 0 then d
    else
      var rest := WithoutExpired(d, pending, n - 1, now);
      if Expired(pending[n - 1], now) then Remove(rest, pending[n - 1].id, New) else rest
  }

  /** What one turn takes up: reserved mail first, and otherwise the oldest due envelope, once those
      that expired before it are withdrawn. */
  datatype Pick = Pick(disk: Disk, next: Option<Envelope>)

  function Picked(d: Disk, pending: seq<Envelope>, now: Time): Pick {
    var r := ReservedIn(d.agent, pending);
    if r < |pending| then Pick(d, Some(pending[r]))
    else
      var n := DueIn(pending, now);
      Pick(WithoutExpired(d, pending, n, now), if n < |pending| then Some(pending[n]) else None)
  }

  /** A turn leaves its envelope queued behind a withheld continuation, a failed startup or an
      occupied composer. */
  predicate HeldBack(d: Disk, e: Envelope, turn: Turn) {
    (IsResume(e) && !CompletedResume(d.agent, e)) || FailedStartup(d) || !turn.free
  }

  /** One delivery, with the late proof that an unverified one is given. */
  function DeliveryDone(t: State, at: Time, e: Envelope, fit: nat, v: Verdict, late: Option<Hook>): Done
    requires at != 0 && In(t.disk, e.id, New)
  {
    var n := State(Attempted(t.disk, at, e, fit, v), if v.Sent? then Pressed(t.world, e.id) else t.world);
    if Result(e, v) != Unverified then Done(n, true)
    else Done(n.(disk := LateDone(n.disk, at, late)), !LateProof(n.disk, late).ReadError?)
  }

  /** A failed paste, or a continuation still unverified, ends the drain. */
  predicate EndsDrain(a: Agent, e: Envelope, v: Verdict) {
    || (Result(e, v) == Failed && v.NotSubmitted?)
    || (IsResume(e) && Result(e, v) == Unverified && a.lastDelivered != Some(e.id))
  }

  /** A drain, turn by turn. */
  ghost function Drained(t: State, at: Time, turns: seq<Turn>): Done
    requires at != 0
    decreases |turns|
  {
    if turns == [] then Done(t, true)
    else
      var p, turn := Picked(t.disk, Mail(t.disk), at), turns[0];
      var swept := t.(disk := p.disk);
      if p.next.None? || !In(p.disk, p.next.value.id, New) || HeldBack(p.disk, p.next.value, turn) then Done(swept, true)
      else
        var n := DeliveryDone(swept, at, p.next.value, turn.fit, turn.verdict, turn.late);
        if !n.ok || EndsDrain(n.state.disk.agent, p.next.value, turn.verdict) then n else Drained(n.state, at, turns[1..])
  }

  /** The deadlines of a record, settled at one time. */
  function DeadlinesDone(a: Agent, at: Time): Agent {
    var b := if Overdue(a, at) then Applied(a, at, CompactionUnconfirmed(a.compaction.value.id, UNCONFIRMED, false)) else a;
    var n := Applied(b, at, DeadlineChecked);
    if n.status == b.status && n.activity == b.activity && n.evidence == b.evidence then b else n
  }

  /** A drain by an owner: deadlines first, then the compaction, then the turns of an active agent. */
  function DrainReady(t: State, at: Time): State
    requires at != 0
  {
    Continued(t.(disk := t.disk.(agent := DeadlinesDone(t.disk.agent, at))), at)
  }

  ghost function DrainDone(t: State, at: Time, turns: seq<Turn>): Done
    requires at != 0
  {
    var ready := DrainReady(t, at);
    if ready.disk.agent.status != Active then Done(ready, true) else Drained(ready, at, turns)
  }

  /** The oldest mail a drain would take up is a resume note it may not type. */
  ghost predicate Stuck(d: Disk, id: EnvelopeID, now: Time) {
    && In(d, id, New)
    && var e := d.files[id].envelope;
       && IsResume(e) && !CompletedResume(d.agent, e) && Due(e, now) && !Expired(e, now)
       && forall k | In(d, k, New) ::
            var f := d.files[k].envelope;
            !Reserved(d.agent, f) && (k != id && Due(f, now) && !Expired(f, now) ==> Earlier(e, f))
  }

  const OPERATION_TIMEOUT := 30000

  /** A request for compaction, as the command builds it. */
  function NewCompaction(id: nat, at: Time, resume: string, from: Sender): Compaction {
    Compaction(id, resume, from, at, at + OPERATION_TIMEOUT, Queued, false, None, false, 0, "", false)
  }

  /** The continuation of the current compaction. */
  function ResumeEnvelope(a: Agent, at: Time): Envelope
    requires a.compaction.Some? && a.compaction.value.resumeToken.Some?
  {
    var c := a.compaction.value;
    Envelope(ResumeNote(c.id), c.resumeToken.value, a.id, a.name, c.resumeFrom, c.resume, Resume, at, 0, 0,
             false, false, false, None, NoOutcome, "")
  }

  /** How entering the continuation went, once the compact command was submitted. */
  datatype Entry =
    | ComposerRefused(reason: string)
    | PasteFailed(reason: string)
    | SubmitFailed(reason: string)
    | InQueue(accepted: bool)
  {
    function Reason(): string {
      if InQueue? then "" else reason
    }
  }

  /** How far a compaction got when it was started. */
  datatype Start =
    | NotReady
    | Waits(reason: string)
    | Aborted(reason: string)
    | Deferred
    | EnterFailed(reason: string)
    | Started(entry: Entry, fit: nat, late: Option<Hook>, refused: bool)

  function EntryVerdict(entry: Entry): Verdict {
    match entry
    case ComposerRefused(reason) => NotSubmitted(false, reason)
    case PasteFailed(reason) => NotSubmitted(false, reason)
    case SubmitFailed(reason) => Sent(Unverified, reason)
    case InQueue(accepted) => Sent(if accepted then Accepted else Unverified, "awaiting exact hook proof")
  }

  /** Why a submit hook refuses a resume prompt: nothing awaits it, it was taken before, it is not
      the retained text, the compaction cannot have run, or the session is another one. */
  predicate PromptBlocked(a: Agent, matches: bool, sameSession: bool) {
    || a.compaction.None? || a.compaction.value.resumeToken.None? || a.compaction.value.resumeAdmitted
    || !matches || !sameSession
    || (var c := a.compaction.value;
        && (c.status != Completed || c.completedAt <= c.startedAt)
        && ((c.status != Submitted && c.status != CompactionUnverified) || !c.continuation))
  }

  function Pressed(w: World, id: EnvelopeID): World {
    w.(typed := w.typed + multiset{id})
  }

  const WATCHDOG_TIMEOUT := 5000

  const OWNER_EXITED := "input owner exited before recording the outcome"
  const RECOVERY_EXITED := "recovery owner exited before recording the outcome"

  const ADMITTED_UNCONFIRMED := "native compaction completion unconfirmed; queued continuation admitted"

  function BandEnvelope(a: Agent, at: Time, message: string): Envelope {
    Envelope(BandNote(a.bands.sequence + 1), 0, a.id, a.name, Sender(GanglineSender, "context-band"), message,
             Ordinary, at, 0, 0, false, false, false, None, NoOutcome, "")
  }

  /** Publishing the pending notes of the saved record; after a reset what is queued goes first. */
  function NotesSettled(t: State, now: Time): State {
    var a := t.disk.agent;
    NotesQueued(if a.bands.discardQueued
                then t.(disk := ResetFiles(t.disk).(agent := a.(bands := a.bands.(discardQueued := false)))) else t,
                now, a.bands.pending)
  }

  /** The record once the end of a compaction was witnessed: the current one is proved if it was
      submitted before, and the crossings of the old context are forgotten. */
  function EndNoted(a: Agent, at: Time): Agent {
    var proved :=
      if a.compaction.Some? && (a.compaction.value.status == Submitted || a.compaction.value.status == CompactionUnverified)
         && at > a.compaction.value.startedAt
      then a.(compaction := Some(a.compaction.value.(completedAt := at))) else a;
    proved.(bands := a.bands.(pending := [], discardQueued := true), confirmedCompactedAt := at)
  }

  function Witnessed(t: State, now: Time, ended: Option<Time>): State
    requires now != 0
  {
    if ended.None? || ended.value <= t.disk.agent.confirmedCompactedAt then t
    else Continued(NotesSettled(t.(disk := t.disk.(agent := EndNoted(t.disk.agent, ended.value))), now), now)
  }

  /** The state as a new owner finds it: the marooned notes are known from now on. */
  function Taken(t: State): State {
    t.(world := t.world.(stranded := Noticed(t.disk)))
  }

  /** What a new owner makes of the state once it can read the receipts. */
  function Acquired(t: State, at: Time, hook: Option<Hook>, ended: Option<Time>): State
    requires at != 0
  {
    UpToDate(Taken(t).(disk := LateDone(InputRecovered(Cleaned(t.disk), at), at, hook)), at, ended)
  }

  /** The witness, the crossings, the compaction and the deadlines, in that order. */
  function UpToDate(t: State, at: Time, ended: Option<Time>): State
    requires at != 0
  {
    var ready := Continued(NotesSettled(Witnessed(t, at, ended), at), at);
    ready.(disk := ready.disk.(agent := DeadlinesDone(ready.disk.agent, at)))
  }

  /** Why the compact command refuses: the agent is not active, its startup is unverified, or the
      continuation of the current compaction is still on its way. */
  predicate RequestRefused(d: Disk, at: Time, running: bool) {
    || d.agent.status != Active || FailedStartup(d)
    || (&& d.agent.compaction.Some?
        && var c := d.agent.compaction.value;
           || (In(d, ResumeNote(c.id), New) && CompletedResume(d.agent, d.files[ResumeNote(c.id)].envelope))
           || (c.status == Completed && c.continuation && !c.resumeAdmitted && at < c.completedAt + OPERATION_TIMEOUT)
           || (c.status == CompactionUnverified && c.continuation && !c.resumeAdmitted && !c.recovered && running)
           || PendingRequest(c))
  }

  /** What an operator may stop: a queued request, or a running compaction whose continuation waits. */
  predicate Interruptible(a: Agent, busy: bool) {
    && a.compaction.Some?
    && var c := a.compaction.value;
       || c.status == Queued
       || (&& (c.status == Submitted || c.status == CompactionUnverified) && c.continuation && !c.resumeAdmitted && !c.recovered
           && a.status == Active && busy)
  }

  function Interrupted(a: Agent, at: Time, reason: string): Agent
    requires a.compaction.Some?
  {
    var c := a.compaction.value;
    if c.status == Queued then Applied(a, at, CompactionCancelled(c.id))
    else Applied(Applied(a, at, InputStarted(RecoveryInput(c.id))), at, CompactionUnconfirmed(c.id, reason, true))
  }

  /** The continuation is admitted. */
  function Admitted(a: Agent): Agent
    requires a.compaction.Some?
  {
    var c := a.compaction.value.(resumeAdmitted := true);
    a.(compaction := Some(
         if c.status == Submitted && c.completedAt <= c.startedAt
         then c.(status := CompactionUnverified, reason := ADMITTED_UNCONFIRMED) else c))
  }

  /** A blocked prompt that is headed by the continuation input waits behind. */
  predicate BlocksNote(a: Agent, heads: bool) {
    && heads && a.compaction.Some? && a.compaction.value.resumeToken.Some? && !a.compaction.value.resumeAdmitted
    && a.compaction.value.status != CompactionFailed
  }

  const NOTE_BLOCKED := "resume note blocked"
  const REFUSED := "native compaction refused; resume withheld"

  function AdmissionDone(t: State, at: Time, matches: bool, sameSession: bool, heads: bool): Done
    requires at != 0
  {
    var a := t.disk.agent;
    if !PromptBlocked(a, matches, sameSession)
    then Done(State(t.disk.(agent := Admitted(a)), t.world.(admissions := t.world.admissions + multiset{a.compaction.value.id})), true)
    else if BlocksNote(a, heads) then LostDone(t, at, NOTE_BLOCKED)
    else Done(t, true)
  }

  /** A fresh refusal on screen fails a compaction whose end was not proved. */
  function ObservationDone(t: State, at: Time, refused: bool): Done
    requires at != 0
  {
    var a := t.disk.agent;
    if a.compaction.None? || (a.compaction.value.status != Submitted && a.compaction.value.status != CompactionUnverified)
    then Done(t, true)
    else if a.compaction.value.completedAt > a.compaction.value.startedAt then Done(Continued(t, at), true)
    else if refused then LostDone(t, at, REFUSED)
    else Done(t, true)
  }

  /** The record that has a token for its continuation. */
  function Tokened(a: Agent, token: nat): Agent
    requires a.compaction.Some?
  {
    if a.compaction.value.resumeToken.Some? then a else a.(compaction := Some(a.compaction.value.(resumeToken := Some(token))))
  }

  /** The continuation is queued, and the record remembers it. */
  function ResumePublished(t: State, at: Time, token: nat): State
    requires t.disk.agent.compaction.Some?
  {
    var a := Tokened(t.disk.agent, token);
    var n := Queue(t.(disk := t.disk.(agent := a)), ResumeEnvelope(a, at));
    n.(disk := n.disk.(agent := a.(compaction := Some(a.compaction.value.(continuation := true)))))
  }

  /** The states that publishing the continuation goes through: its token, its link, and the record. */
  function PublishTrace(t: State, at: Time, token: nat): (trace: seq<State>)
    requires t.disk.agent.compaction.Some?
    ensures trace != [] && trace[0] == t && trace[|trace| - 1] == ResumePublished(t, at, token)
  {
    var given := t.(disk := t.disk.(agent := Tokened(t.disk.agent, token)));
    (if given == t then [t] else [t, given]) + [Queue(given, ResumeEnvelope(given.disk.agent, at)), ResumePublished(t, at, token)]
  }

  /** The continuation entered behind the compact command, and why it was not if it was not. */
  datatype Entered = Entered(state: State, error: Option<string>)

  const RECEIPT_UNREADABLE := "retained receipt cannot be read"

  function ResumeEntered(t: State, at: Time, token: nat, entry: Entry, fit: nat, late: Option<Hook>): Entered
    requires at != 0 && t.disk.agent.compaction.Some?
  {
    var n := ResumePublished(t, at, token);
    var e := ResumeEnvelope(Tokened(t.disk.agent, token), at);
    if entry.ComposerRefused? || !In(n.disk, e.id, New) then Entered(n, Some(entry.Reason()))
    else ResumeTyped(n, at, e, entry, fit, late)
  }

  /** The queued continuation typed behind the compact command, with its late proof. */
  function ResumeTyped(t: State, at: Time, e: Envelope, entry: Entry, fit: nat, late: Option<Hook>): Entered
    requires at != 0 && In(t.disk, e.id, New)
  {
    var v := EntryVerdict(entry);
    var typed := State(Attempted(t.disk, at, e, fit, v), if v.Sent? then Pressed(t.world, e.id) else t.world);
    if !entry.InQueue? then Entered(typed, Some(entry.Reason()))
    else if LateProof(typed.disk, late).ReadError? then Entered(typed, Some(RECEIPT_UNREADABLE))
    else Entered(typed.(disk := LateDone(typed.disk, at, late)), None)
  }

  /** The record that says what a queued compaction waits for. */
  function WaitNoted(a: Agent, at: Time, reason: string): Agent {
    if a.compaction.None? || a.compaction.value.reason == reason then a
    else Applied(a, at, CompactionWaiting(a.compaction.value.id, reason))
  }

  function Begun(a: Agent, at: Time): Agent
    requires a.compaction.Some?
  {
    var c := a.compaction.value.(startedAt := at, deadline := at + OPERATION_TIMEOUT);
    InputBegun(a.(compaction := Some(c)), at, CompactionInput(c.id))
  }

  const DRAFT_WITHDRAWN := "staged command withdrawn; waiting for native idle"

  /** What starting a queued compaction comes to. */
  function StartDone(t: State, at: Time, token: nat, start: Start): Done
    requires at != 0
  {
    var a := t.disk.agent;
    if a.compaction.None? || a.compaction.value.status != Queued || a.status != Active || FailedStartup(t.disk) || start.NotReady?
    then Done(t, true)
    else if start.Waits? then Done(t.(disk := t.disk.(agent := WaitNoted(a, at, start.reason))), true)
    else
      CarriedOut(t.(disk := t.disk.(agent := Begun(WaitNoted(a, at, ""), at))), at, token, start)
  }

  /** What a compaction comes to once its intent is saved. */
  function CarriedOut(t: State, at: Time, token: nat, start: Start): Done
    requires at != 0
  {
    var a := t.disk.agent;
    if a.compaction.None? then Done(t, true)
    else
      var c := a.compaction.value.id;
      match start
      case Aborted(reason) => LostDone(t, at, reason)
      case Deferred =>
        var idle := Applied(a, at, InputFinished(CompactionInput(c), "withdrawn", ""));
        Done(t.(disk := t.disk.(agent := Applied(idle, at, CompactionWaiting(c, DRAFT_WITHDRAWN)))), true)
      case EnterFailed(reason) =>
        Done(t.(disk := t.disk.(agent := Applied(a, at, CompactionUnconfirmed(c, reason, false)))), true)
      case Started(entry, fit, late, refused) =>
        StartEntered(t.(disk := t.disk.(agent := Applied(a, at, CompactionSubmitted(c)))), at, token, entry, fit, late, refused)
      case _ => Done(t, true)
  }

  /** Past its submit key a compaction goes on with its continuation, or fails. */
  function StartEntered(t: State, at: Time, token: nat, entry: Entry, fit: nat, late: Option<Hook>, refused: bool): Done
    requires at != 0
  {
    if t.disk.agent.compaction.None? then Done(t, true)
    else
      var n := ResumeEntered(t, at, token, entry, fit, late);
      if n.state.disk.agent.compaction.None? then Done(n.state, true)
      else if n.error.Some? then LostDone(n.state, at, n.error.value)
      else
        var seen := ObservationDone(n.state, at, refused);
        if seen.ok then Done(Continued(seen.state, at), true) else seen
  }

  lemma AdmittedOnce(d: Disk, w: World)
    requires Inv(d, w)
    ensures forall c :: w.admissions[c] <= 1
  {
  }

  lemma ListedOnes(d: Disk, pending: seq<Envelope>)
    requires Listing(d, pending)
    ensures forall i | 0 <= i < |pending| :: In(d, pending[i].id, New) && d.files[pending[i].id].envelope == pending[i]
  {
  }

  lemma UnlinkedIsAbsent(d: Disk, w: World, id: EnvelopeID)
    requires Inv(d, w) && w.links[id] == 0
    ensures id !in d.files && w.typed[id] == 0
  {
    if id in d.files {
      FileIsSound(d, w, id);
    }
    TypedWithinLinks(w, id);
  }

  lemma CompletionAllowed(d: Disk, w: World)
    requires Inv(d, w) && d.agent.input.None? && Proved(d.agent)
    ensures var c := d.agent.compaction.value;
            var r := Step(d.agent, d.agent.id, c.completedAt, CompactionCompleted(c.id));
            && r == Stepped(Completing(d.agent)) && Inv(d.(agent := r.agent), w)
            && r.agent.compaction == Some(c.(status := Completed, reason := ""))
            && r.agent == Completing(d.agent)
            && SameReceipts(d.agent, r.agent) && r.agent.input.None? && r.agent.bands == d.agent.bands
            && Steady(d, d.(agent := r.agent))
  {
    CompactionMoved(d, w, Completing(d.agent));
  }

  lemma SettleKeeps(d: Disk, w: World, e: Envelope, outcome: Outcome, reason: string)
    requires Inv(d, w) && In(d, e.id, New) && d.agent.cleanup.None? && d.agent.lastFailed.None?
    requires outcome == Cancelled
    ensures var n := Settled(d, e, outcome, reason);
            && n.agent.input == d.agent.input && n.agent.compaction == d.agent.compaction && n.agent.bands == d.agent.bands
  {
  }

  lemma InterruptDropped(d: Disk, w: World, b: Agent)
    requires Inv(d, w) && d.agent.input.Some? && d.agent.input.value.InterruptInput?
    requires b == d.agent.(input := None, activity := b.activity, evidence := b.evidence)
    ensures Inv(d.(agent := b), w)
    ensures Steady(d, d.(agent := b))
  {
    RecordSteady(d, b);
    PointersSaved(d, b);
    hide Steady, Filed, Counted, Pointed;
    RecordSaved(d, w, b, w);
  }

  lemma {:induction false} ResetOne(d: Disk, listed: seq<Envelope>, id: EnvelopeID)
    requires forall e <- listed :: In(d, e.id, New) && d.files[e.id].envelope == e
    requires forall i, j | 0 <= i < j < |listed| :: listed[i].id != listed[j].id
    requires id in d.files ==> d.files[id].envelope.id == id
    ensures Reset(d, listed).agent == d.agent
    ensures id in d.files && In(d, id, New) && d.files[id].envelope in listed ==>
              if QueuedNotice(d.files[id]) then id !in Reset(d, listed).files
              else id in Reset(d, listed).files && Reset(d, listed).files[id] == Restamped(d.files[id])
    ensures !(id in d.files && In(d, id, New) && d.files[id].envelope in listed) ==>
              (id in Reset(d, listed).files <==> id in d.files)
              && (id in d.files ==> Reset(d, listed).files[id] == d.files[id])
  {
    if listed != [] {
      var n := |listed| - 1;
      var e := listed[n];
      assert listed == listed[..n] + [e];
      assert e !in listed[..n];
      ResetOne(d, listed[..n], id);
      ResetOne(d, listed[..n], e.id);
    }
  }

  lemma ResetMeans(d: Disk, w: World, listed: seq<Envelope>)
    requires Inv(d, w) && Listing(d, listed)
    ensures Reset(d, listed) == ResetFiles(d)
  {
    ListedApart(d, listed);
    forall id
      ensures id in Reset(d, listed).files <==> id in d.files && !QueuedNotice(d.files[id])
      ensures id in Reset(d, listed).files ==> Reset(d, listed).files[id] == Restamped(d.files[id])
    {
      if id in d.files {
        FileIsSound(d, w, id);
      }
      hide Inv, Ordered;
      ResetOne(d, listed, id);
    }
    ResetOne(d, listed, Message(0));
    assert Reset(d, listed).files == ResetFiles(d).files;
  }

  lemma ListedApart(d: Disk, listed: seq<Envelope>)
    requires Listing(d, listed)
    ensures forall i, j | 0 <= i < j < |listed| :: listed[i].id != listed[j].id
  {
    forall i, j | 0 <= i < j < |listed| ensures listed[i].id != listed[j].id {
      assert Earlier(listed[i], listed[j]);
    }
  }

  lemma NotesAreBands(d: Disk, w: World)
    requires Inv(d, w)
    ensures BandsSound(d.agent)
  {
  }

  /** What filing a result means: the envelope lies in its result directory under its outcome and
      nowhere else, the record names it once, the receipt it replaces is gone, no removal is left
      over, and no other envelope's file changed. */
  lemma SettledNames(d: Disk, w: World, e: Envelope, outcome: Outcome, reason: string)
    requires Inv(d, w) && In(d, e.id, New) && outcome != NoOutcome && Holds(d.agent, e.id)
    ensures var n := Settled(d, e, outcome, reason);
            && In(n, e.id, DirectoryOf(outcome)) && n.files[e.id].envelope == Closed(e, outcome, reason)
            && SoleReceipt(n.agent, outcome, e.id) && n.agent.cleanup.None?
            && n.agent.input == d.agent.input && n.agent.bands == d.agent.bands && n.agent.compaction == d.agent.compaction
  {
  }

  lemma {:induction false} NotesLeave(d: Disk, notes: seq<Envelope>, crossed: set<EnvelopeID>, id: EnvelopeID)
    ensures var n := WithoutNotes(d, notes, crossed, id);
            n.agent == d.agent && (id in d.files ==> id in n.files && n.files[id] == d.files[id])
  {
    if notes != [] {
      NotesLeave(d, notes[..|notes| - 1], crossed, id);
    }
  }

  lemma StampKeepsReceipt(d: Disk, e: Envelope, outcome: Outcome)
    requires e.id in d.files
    ensures var n := StampSettled(d, e, outcome);
            && e.id in n.files && n.files[e.id] == d.files[e.id]
            && n.agent == d.agent.(bands := n.agent.bands)
  {
    if e.stamp.Some? && outcome == Delivered {
      NotesLeave(d, d.agent.bands.pending, e.stamp.value, e.id);
    }
  }

  lemma ResetOfAgent(d: Disk, a: Agent)
    ensures ResetFiles(d.(agent := a)) == ResetFiles(d).(agent := a)
  {
  }

  /** A note with another result than delivered is not named as delivered. */
  lemma UndeliveredIsUnnamed(d: Disk, w: World, id: EnvelopeID)
    requires Inv(d, w) && id in d.files && d.files[id].envelope.outcome != Delivered && !Holds(d.agent, id)
    ensures d.agent.lastDelivered != Some(id)
  {
  }

  /** The continuation of a compaction that has not failed is not stranded. */
  lemma CurrentIsAfloat(d: Disk, w: World)
    requires Inv(d, w) && d.agent.compaction.Some? && d.agent.compaction.value.status != CompactionFailed
    ensures ResumeNote(d.agent.compaction.value.id) !in w.stranded
  {
  }

  /** A continuation that is withheld was not delivered, so failing its compaction is no error. */
  lemma WithheldIsUndelivered(d: Disk, w: World)
    requires Inv(d, w) && d.agent.input.None? && Withheld(d)
    ensures !NoteDelivered(d)
  {
    var id := ResumeNote(d.agent.compaction.value.id);
    if id in d.files {
      assert FileSound(id, d.files[id], d.agent, w);
    }
  }

  /** Lived through, the steps of a cancellation end where its specification says. */
  lemma CancelTraceEnds(d: Disk, w: World, c: nat, reason: string)
    requires Inv(d, w) && d.agent.cleanup.None?
    ensures var trace, id := CancelTrace(d, c, reason), ResumeNote(c);
            !(id in d.files && d.files[id].envelope.outcome == Delivered) ==> trace[|trace| - 1] == ResumeCancelled(d, c, reason)
  {
    if ResumeNote(c) in d.files {
      FileIsSound(d, w, ResumeNote(c));
    }
    hide Inv;
  }

  lemma FailTraceEnds(t: Durable, at: Time, reason: string)
    requires at != 0 && t.disk.agent.compaction.Some? && t.disk.agent.cleanup.None?
    requires t.disk.agent.compaction.value.status != CompactionFailed
    requires t.disk.agent.input.Some? ==> !t.disk.agent.input.value.EnvelopeInput?
    ensures var trace := FailTrace(t, at, reason); trace[|trace| - 1] == LostDone(t, at, reason).state
  {
    var c := t.disk.agent.compaction.value.id;
    var f := t.disk.(agent := FailureOf(t.disk, at, reason));
    CompactionLost(t.disk, t.world, f.agent);
    CancelTraceEnds(f, t.world.(dead := t.world.dead + {c}), c, reason);
    CurrentIsSound(t.disk, t.world);
    UnlinkedIsAbsent(t.disk, t.world, FailureNote(c));
    hide Inv, CancelTrace, ResumeCancelled;
  }

  /** A listed envelope is not a resume note when it can expire. */
  lemma ListedIsMail(d: Disk, w: World, pending: seq<Envelope>, i: nat)
    requires Inv(d, w) && Listing(d, pending) && i < |pending|
    ensures pending[i].id.ResumeNote? ==> pending[i].notAfter == 0
  {
    FileIsSound(d, w, pending[i].id);
  }

  /** Withdrawing expired mail leaves the rest of the listing alone. */
  lemma {:induction false} SweepSpares(d: Disk, w: World, pending: seq<Envelope>, n: nat, now: Time)
    requires Inv(d, w) && Listing(d, pending) && n <= |pending|
    ensures var s := WithoutExpired(d, pending, n, now);
            && s.agent == d.agent
            && forall i | n <= i < |pending| :: In(s, pending[i].id, New) && s.files[pending[i].id].envelope == pending[i]
  {
    ListedOnes(d, pending);
    ListedApart(d, pending);
    hide Inv, Listing, Ordered, Expired;
    if n > 0 {
      SweepSpares(d, w, pending, n - 1, now);
      var rest := WithoutExpired(d, pending, n - 1, now);
      assert forall i | n <= i < |pending| :: In(rest, pending[i].id, New) && pending[i].id != pending[n - 1].id;
    }
  }

  lemma GrowsMeans(w: World, x: World)
    requires Grows(w, x)
    ensures w.stranded <= x.stranded && forall id <- w.stranded :: x.typed[id] == w.typed[id]
  {
  }

  lemma DrainUnfolds(t: State, at: Time, turns: seq<Turn>)
    requires at != 0
    ensures turns == [] ==> Drained(t, at, turns) == Done(t, true)
    ensures turns != [] ==>
      var p, turn := Picked(t.disk, Mail(t.disk), at), turns[0];
      var swept := t.(disk := p.disk);
      Drained(t, at, turns) ==
        if p.next.None? || !In(p.disk, p.next.value.id, New) || HeldBack(p.disk, p.next.value, turn) then Done(swept, true)
        else
          var n := DeliveryDone(swept, at, p.next.value, turn.fit, turn.verdict, turn.late);
          if !n.ok || EndsDrain(n.state.disk.agent, p.next.value, turn.verdict) then n else Drained(n.state, at, turns[1..])
  {
  }

  /** A queued envelope's file is its own. */
  ghost predicate Keyed(d: Disk) {
    forall id | In(d, id, New) :: d.files[id].envelope.id == id
  }

  lemma {:induction false} ListingExists(d: Disk, ids: set<EnvelopeID>) returns (p: seq<Envelope>)
    requires Keyed(d) && forall id <- ids :: In(d, id, New)
    ensures Ordered(p) && forall e :: e in p <==> e.id in ids && In(d, e.id, New) && d.files[e.id].envelope == e
  {
    if ids == {} {
      p := [];
    } else {
      var id :| id in ids;
      var rest := ListingExists(d, ids - {id});
      p := Insert(rest, d.files[id].envelope);
      Inserted(rest, d.files[id].envelope);
    }
  }

  lemma KeyedMail(d: Disk)
    requires Keyed(d)
    ensures Listing(d, Mail(d))
  {
    var ids := set id | id in d.files && In(d, id, New);
    var p := ListingExists(d, ids);
    forall id | In(d, id, New) ensures d.files[id].envelope in p {
    }
    assert Listing(d, p);
  }

  lemma MailIsListing(d: Disk, w: World)
    requires Inv(d, w)
    ensures Listing(d, Mail(d)) && Keyed(d)
  {
    forall id | In(d, id, New) ensures d.files[id].envelope.id == id {
      FileIsSound(d, w, id);
    }
    KeyedMail(d);
  }

  /** What is picked is reserved and no reserved mail is earlier, or no mail is reserved and no due
      mail is earlier. */
  lemma PickIsFirst(d: Disk, now: Time)
    requires Keyed(d)
    ensures var next := Picked(d, Mail(d), now).next;
            match next
            case None => forall k | In(d, k, New) ::
              var f := d.files[k].envelope; !Reserved(d.agent, f) && !(Due(f, now) && !Expired(f, now))
            case Some(e) =>
              && In(d, e.id, New) && d.files[e.id].envelope == e
              && (Reserved(d.agent, e) || (Due(e, now) && !Expired(e, now)))
              && forall k | In(d, k, New) && k != e.id ::
                   var f := d.files[k].envelope;
                   && (Reserved(d.agent, f) ==> Reserved(d.agent, e) && Earlier(e, f))
                   && (Due(f, now) && !Expired(f, now) ==> Reserved(d.agent, e) || Earlier(e, f))
  {
    hide CompletedResume, Expired, Due, Reserved, Earlier;
    KeyedMail(d);
    var p := Mail(d);
    ListedOnes(d, p);
    hide Mail, WithoutExpired;
    var r, n := ReservedIn(d.agent, p), DueIn(p, now);
    forall k | In(d, k, New)
      ensures exists j :: 0 <= j < |p| && p[j] == d.files[k].envelope
    {
      assert d.files[k].envelope in p;
    }
  }

  /** A turn is held back by a resume note exactly when one is stuck. */
  lemma StuckIsPicked(d: Disk, w: World, now: Time)
    requires Inv(d, w)
    ensures var next := Picked(d, Mail(d), now).next;
            (exists id :: Stuck(d, id, now)) <==> next.Some? && IsResume(next.value) && !CompletedResume(d.agent, next.value)
  {
    MailIsListing(d, w);
    PickIsFirst(d, now);
    var next := Picked(d, Mail(d), now).next;
    if next.Some? {
      FileIsSound(d, w, next.value.id);
    }
    hide Inv, Picked, CompletedResume, Expired, Due, Mail;
    if next.Some? && IsResume(next.value) && !CompletedResume(d.agent, next.value) {
      assert Stuck(d, next.value.id, now);
    }
  }

  lemma LivesOn(d: Disk, left: Option<nat>)
    ensures Reached([d], left) == d && Rest(left, 0) == left && Lives(left, 0)
  {
  }

  lemma PressGrows(w: World, id: EnvelopeID)
    requires id !in w.stranded
    ensures Grows(w, w) && Grows(w, Pressed(w, id))
  {
  }

  /** The writes of a failing compaction: its record, the cancellation, the notice. */
  lemma FailTraceParts(t: Durable, at: Time, reason: string, left: Option<nat>)
    requires at != 0 && t.disk.agent.compaction.Some? && FailureNote(t.disk.agent.compaction.value.id) !in t.disk.files
    ensures var c, trace := t.disk.agent.compaction.value.id, FailTrace(t, at, reason);
            var f := t.disk.(agent := FailureOf(t.disk, at, reason));
            var w := t.world.(dead := t.world.dead + {c});
            var cancel, then1 := CancelTrace(f, c, reason), Rest(left, 1);
            var then2 := Rest(then1, |cancel| - 1);
            && (left.None? ==> Reached(trace, left) == trace[|trace| - 1] && Lives(then1, |cancel| - 1) && then2 != Some(0))
            && (left == Some(0) ==> Reached(trace, left) == t && !Lives(left, |trace| - 1))
            && (left != Some(0) && !Lives(then1, |cancel| - 1) ==>
                  Reached(trace, left) == State(Reached(cancel, then1), w) && !Lives(left, |trace| - 1))
            && (left != Some(0) && Lives(then1, |cancel| - 1) ==>
                  var last := State(cancel[|cancel| - 1], w);
                  && Reached(cancel, then1) == last.disk
                  && if NoteDelivered(t.disk) then Reached(trace, left) == last && Lives(left, |trace| - 1)
                     else if then2 == Some(0) then Reached(trace, left) == last && !Lives(left, |trace| - 1)
                     else && Reached(trace, left) == Queue(last, FailureEnvelope(f.agent, at, reason)) == trace[|trace| - 1]
                          && Lives(left, |trace| - 1))
  {
    hide CancelTrace, FailureOf, Queue, NoteDelivered;
  }

  /** The record names, in the order reconciliation looks, a resume note that was moved back into
      `new` after its compaction failed. */
  ghost predicate Dangling(d: Disk, hook: Hook) {
    var a := d.agent;
    || (a.lastFailed.Some? && MovedBack(d, a.lastFailed.value))
    || (&& a.lastAccepted.Some? && MovedBack(d, a.lastAccepted.value)
        && !(a.lastFailed.Some? && In(d, a.lastFailed.value, FailedDir) && Proves(hook, d.files[a.lastFailed.value].envelope)))
  }

  /** Late reconciliation cannot read a receipt exactly when the record dangles. */
  lemma ReadErrorIff(d: Disk, w: World, hook: Option<Hook>)
    requires Inv(d, w) && d.agent.input.None?
    ensures LateProof(d, hook).ReadError? <==> hook.Some? && Dangling(d, hook.value)
  {
    var a := d.agent;
    if a.lastFailed.Some? && a.lastFailed.value in d.files {
      FileIsSound(d, w, a.lastFailed.value);
    }
  }
}
