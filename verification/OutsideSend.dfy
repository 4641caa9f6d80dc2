/** Sends by an outside sender under an idempotency key (cmd/gang/outside.go, store/outside.go). */
module OutsideSend {
  import opened Records

  type ID = nat
  type Hitch = nat

  /** One registered sender's key. */
  datatype Key = Key(sender: Hitch, key: string)

  /** What a key's fingerprint stands for. */
  datatype Request = Request(to: string, body: string)

  datatype Parcel = Parcel(id: ID, recipient: Hitch, to: string, text: string)

  datatype Delivery = WasQueued | IsUnknown

  datatype Receipt = Receipt(id: ID, outcome: Delivery)

  /** The saved record of a key: an envelope to publish, or the receipt that replaced it. */
  datatype Intent = Intent(request: Request, envelope: Option<Parcel>, attempted: bool, receipt: Option<Receipt>)

  datatype Entry = Entry(delivery: Delivery, envelope: Parcel)

  /** Saved intents, inbox files and the team log; and, as history, the key each ID was saved for,
      every link made, and the files settled and pruned since. */
  datatype State = State(
    intents: map<Key, Intent>, files: set<ID>, log: seq<Entry>,
    minted: map<ID, Key>, links: multiset<ID>, pruned: set<ID>)

  predicate Names(i: Intent, id: ID) {
    || (i.envelope.Some? && i.envelope.value.id == id)
    || (i.receipt.Some? && i.receipt.value.id == id)
  }

  ghost predicate Mine(s: State, k: Key, id: ID) {
    id in s.minted && s.minted[id] == k
  }

  /** The log keeps the message a receipt speaks of. */
  ghost predicate Retained(log: seq<Entry>, r: Receipt, q: Request) {
    exists x <- log :: x.delivery == r.outcome && x.envelope.id == r.id && x.envelope.text == q.body
  }

  ghost predicate IntentOk(s: State, k: Key) {
    k in s.intents ==>
      var i := s.intents[k];
      && (i.envelope.Some? <==> i.receipt.None?)
      && (i.envelope.Some? ==> Mine(s, k, i.envelope.value.id) && i.envelope.value.text == i.request.body)
      && (i.receipt.Some? ==> ReceiptOk(s, k, i.request, i.receipt.value))
  }

  ghost predicate ReceiptOk(s: State, k: Key, q: Request, r: Receipt) {
    && Mine(s, k, r.id)
    && (r.outcome.WasQueued? ==> s.links[r.id] == 1)
    && (r.outcome.IsUnknown? ==> r.id !in s.links || r.id in s.pruned)
    && Retained(s.log, r, q)
  }

  /** An ID in use was saved for a key that still names it; a link was made by an attempt. */
  ghost predicate IDOk(s: State, id: ID) {
    && (id in s.minted ==> s.minted[id] in s.intents && Names(s.intents[s.minted[id]], id))
    && (id in s.files ==> id in s.links)
    && (id in s.links ==>
          && s.links[id] == 1 && id in s.minted && (id in s.files || id in s.pruned)
          && (s.intents[s.minted[id]].attempted || s.intents[s.minted[id]].receipt.Some?))
  }

  ghost predicate Inv(s: State) {
    (forall k :: IntentOk(s, k)) && (forall id :: IDOk(s, id))
  }

  type Durable = s: State | Inv(s) ghost witness State(map[], {}, [], map[], multiset{}, {})

  /** A key's first intent names a fresh ID. */
  lemma SaveKeeps(s: State, k: Key, q: Request, e: Parcel)
    requires Inv(s) && k !in s.intents && e.id !in s.minted && e.text == q.body
    ensures Inv(s.(intents := s.intents[k := Intent(q, Some(e), false, None)], minted := s.minted[e.id := k]))
  {
    hide Retained, Inv;
    var t := s.(intents := s.intents[k := Intent(q, Some(e), false, None)], minted := s.minted[e.id := k]);
    IDAt(s, e.id);
    forall k' ensures IntentOk(t, k') {
      IntentAt(s, k');
    }
    forall id ensures IDOk(t, id) {
      IDAt(s, id);
    }
    InvHolds(t);
  }

  lemma IntentAt(s: State, k: Key)
    requires Inv(s)
    ensures IntentOk(s, k)
  {
  }

  lemma IDAt(s: State, id: ID)
    requires Inv(s)
    ensures IDOk(s, id)
  {
  }

  lemma InvHolds(s: State)
    requires (forall k :: IntentOk(s, k)) && (forall id :: IDOk(s, id))
    ensures Inv(s)
  {
  }

  lemma AttemptKeeps(s: State, k: Key)
    requires Inv(s) && k in s.intents
    ensures Inv(s.(intents := s.intents[k := s.intents[k].(attempted := true)]))
  {
    hide Retained, Inv;
    var t := s.(intents := s.intents[k := s.intents[k].(attempted := true)]);
    forall k' ensures IntentOk(t, k') {
      IntentAt(s, k');
    }
    forall id ensures IDOk(t, id) {
      IDAt(s, id);
    }
    InvHolds(t);
  }

  lemma LinkKeeps(s: State, k: Key)
    requires Inv(s) && k in s.intents && s.intents[k].envelope.Some? && s.intents[k].attempted
    requires s.intents[k].envelope.value.id !in s.links
    ensures var id := s.intents[k].envelope.value.id; Inv(s.(links := s.links + multiset{id}, files := s.files + {id}))
  {
    hide Retained, Inv;
    var linked := s.intents[k].envelope.value.id;
    var t := s.(links := s.links + multiset{linked}, files := s.files + {linked});
    IntentAt(s, k);
    forall k' ensures IntentOk(t, k') {
      IntentAt(s, k');
    }
    forall id ensures IDOk(t, id) {
      IDAt(s, id);
    }
    InvHolds(t);
  }

  lemma LogKeeps(s: State, x: Entry)
    requires Inv(s)
    ensures Inv(s.(log := s.log + [x]))
  {
    hide Retained, Inv;
    var t := s.(log := s.log + [x]);
    forall id ensures IDOk(t, id) {
      IDAt(s, id);
    }
    forall k ensures IntentOk(t, k) {
      IntentAt(s, k);
      if k in s.intents && s.intents[k].receipt.Some? {
        RetainedStays(s.log, x, s.intents[k].receipt.value, s.intents[k].request);
      }
    }
    InvHolds(t);
  }

  lemma RetainedStays(log: seq<Entry>, x: Entry, r: Receipt, q: Request)
    requires Retained(log, r, q)
    ensures Retained(log + [x], r, q)
  {
    var y :| y in log && y.delivery == r.outcome && y.envelope.id == r.id && y.envelope.text == q.body;
    assert y in log + [x];
  }

  /** A receipt may replace the envelope once the log holds the message and the outcome is true. */
  lemma SettleKeeps(s: State, k: Key, outcome: Delivery)
    requires Inv(s) && k in s.intents && s.intents[k].envelope.Some?
    requires var e := s.intents[k].envelope.value; Entry(outcome, e) in s.log && (outcome.WasQueued? <==> e.id in s.files)
    ensures var r := Receipt(s.intents[k].envelope.value.id, outcome);
            Inv(s.(intents := s.intents[k := Intent(s.intents[k].request, None, false, Some(r))]))
  {
    hide Inv;
    var e, q := s.intents[k].envelope.value, s.intents[k].request;
    var r := Receipt(e.id, outcome);
    var t := s.(intents := s.intents[k := Intent(q, None, false, Some(r))]);
    IntentAt(s, k);
    IDAt(s, e.id);
    assert Retained(s.log, r, q) by {
      assert Entry(outcome, e).envelope == e;
    }
    hide Retained;
    forall k' ensures IntentOk(t, k') {
      IntentAt(s, k');
    }
    forall id ensures IDOk(t, id) {
      IDAt(s, id);
    }
    InvHolds(t);
  }

  lemma PruneKeeps(s: State, pruned: ID)
    requires Inv(s) && pruned in s.files
    ensures Inv(s.(files := s.files - {pruned}, pruned := s.pruned + {pruned}))
  {
    hide Retained, Inv;
    var t := s.(files := s.files - {pruned}, pruned := s.pruned + {pruned});
    forall k ensures IntentOk(t, k) {
      IntentAt(s, k);
    }
    forall id ensures IDOk(t, id) {
      IDAt(s, id);
    }
    InvHolds(t);
  }

  /** One key links at most one envelope, and that one once. */
  lemma OneLinkPerKey(s: Durable, k: Key, a: ID, b: ID)
    requires a in s.links && b in s.links && Mine(s, k, a) && Mine(s, k, b)
    ensures a == b && s.links[a] == 1
  {
    hide Retained;
    assert IDOk(s, a) && IDOk(s, b) && IntentOk(s, k);
  }

  /** What a settled key's receipt says: a queued message was linked and is in the log; an unknown
      one is in the log too, and if it was linked after all, its file has been settled and pruned. */
  lemma ReceiptMeans(s: Durable, k: Key)
    requires k in s.intents && s.intents[k].receipt.Some?
    ensures var i, r := s.intents[k], s.intents[k].receipt.value;
            && (r.outcome.WasQueued? ==> s.links[r.id] == 1)
            && (r.outcome.IsUnknown? ==> r.id !in s.links || r.id in s.pruned)
            && exists x <- s.log :: x.envelope.id == r.id && x.envelope.text == i.request.body && x.delivery == r.outcome
  {
    assert IntentOk(s, k);
    assert Retained(s.log, s.intents[k].receipt.value, s.intents[k].request);
  }

  datatype Status = Active | Booting | Inactive

  datatype Agent = Agent(id: Hitch, name: string, status: Status)

  /** What one call finds: the agent the name resolves to, and, once it holds the lock, the
      recipient's record, the name's holder and whether a failed startup is retained. */
  datatype View = View(
    authorized: bool, resolved: Option<Agent>, newID: ID, sendable: bool,
    locked: bool, current: Option<Agent>, holder: Option<Hitch>, startupFailed: bool)

  /** How one durable step ends. A crash is a step that fails: nothing after it is done. */
  datatype Fault = Works | FailsBefore | FailsAfter

  datatype Reason =
    | BadUsage | Unauthorized | DifferentSend | NoRecipient | InactiveRecipient | Unsendable | NoEnvelope
    | Locked | RegistrationChanged | StartupUnverified | StepFailed

  datatype Result = Sent(receipt: Receipt) | Error(reason: Reason)

  predicate Reachable(a: Agent) {
    a.status.Active? || a.status.Booting?
  }

  /** The recipient found under the lock is still the one the envelope names. */
  predicate Admits(v: View, e: Parcel) {
    && v.locked && v.current.Some? && v.holder == Some(v.current.value.id) && v.current.value.name == e.to
    && Reachable(v.current.value) && !v.startupFailed
  }

  class Mailbox {
    var s: Durable
    var faults: seq<Fault>

    constructor (s: Durable)
      ensures this.s == s && faults == []
    {
      this.s, faults := s, [];
    }

    /** The next durable step's fate; without faults every step works. */
    method Fate() returns (f: Fault)
      modifies this`faults
      ensures old(faults) == [] ==> f.Works? && faults == []
    {
      f := Works;
      if faults != [] {
        f := faults[0];
        faults := faults[1..];
      }
    }

    method Put(ghost t: Durable, k: Key, i: Intent) returns (ok: bool)
      requires t == s.(intents := s.intents[k := i], minted := t.minted)
      requires t.minted == if k in s.intents || i.envelope.None? then s.minted else s.minted[i.envelope.value.id := k]
      modifies this
      ensures if ok then s == t else s == old(s) || s == t
      ensures old(faults) == [] ==> ok && faults == []
    {
      var f := Fate();
      if !f.FailsBefore? {
        var minted := if k in s.intents || i.envelope.None? then s.minted else s.minted[i.envelope.value.id := k];
        s := s.(intents := s.intents[k := i], minted := minted);
      }
      ok := f.Works?;
    }

    /** Links the envelope into its recipient's inbox, unless its ID is queued there. */
    method PublishNew(k: Key) returns (ok: bool)
      requires k in s.intents && s.intents[k].envelope.Some? && s.intents[k].attempted
      requires s.intents[k].envelope.value.id !in s.links
      modifies this
      ensures var id := old(s.intents[k].envelope.value.id);
              var t := old(s).(links := old(s.links) + multiset{id}, files := old(s.files) + {id});
              if ok then s == t else s == old(s) || s == t
      ensures old(faults) == [] ==> ok && faults == []
    {
      var f := Fate();
      if !f.FailsBefore? {
        LinkKeeps(s, k);
        var id := s.intents[k].envelope.value.id;
        s := s.(links := s.links + multiset{id}, files := s.files + {id});
      }
      ok := f.Works?;
    }

    method Append(x: Entry) returns (ok: bool)
      modifies this
      ensures if ok then s == old(s).(log := old(s).log + [x]) else s == old(s) || s == old(s).(log := old(s).log + [x])
      ensures old(faults) == [] ==> ok && faults == []
    {
      var f := Fate();
      if !f.FailsBefore? {
        LogKeeps(s, x);
        s := s.(log := s.log + [x]);
      }
      ok := f.Works?;
    }

    /** One send under the team's lock. */
    method Send(k: Key, q: Request, v: View) returns (r: Result)
      requires v.newID !in s.minted
      modifies this
      // Settled keys and other keys are left alone.
      ensures forall k' | k' in old(s.intents) && (k' != k || old(s.intents[k']).receipt.Some?) ::
                k' in s.intents && s.intents[k'] == old(s.intents[k'])
      ensures forall k' | k' in s.intents :: k' == k || k' in old(s.intents)
      ensures forall id | id in s.minted :: id in old(s).minted || id == v.newID
      // A message is reported only when its receipt is saved, and a saved receipt is repeated.
      ensures r.Sent? ==> k in s.intents && s.intents[k].request == q && s.intents[k].receipt == Some(r.receipt)
      ensures r.Sent? && k in old(s.intents) && old(s.intents[k]).receipt.Some? ==> s == old(s)
      // The outcome is unknown exactly when an earlier call tried to link and no file remains.
      ensures r.Sent? && (k in old(s.intents) ==> old(s.intents[k]).receipt.None?) ==>
                (r.receipt.outcome.IsUnknown? <==>
                 k in old(s.intents) && old(s.intents[k]).attempted && r.receipt.id !in old(s).files)
      // Nothing is linked after an earlier attempt, and nothing but this key's envelope.
      ensures k in old(s.intents) && old(s.intents[k]).attempted ==> s.links == old(s).links
      ensures s.links == old(s).links || exists id | Mine(s, k, id) :: s.links == old(s).links + multiset{id}
      // A key is refused to a different send, and nothing changes.
      ensures k in old(s.intents) && old(s.intents[k]).request != q ==> r.Error? && s == old(s)
      // Without faults, a recipient that is still registered and reachable gets the message.
      ensures (&& old(faults) == [] && k !in old(s.intents) && q.body != "" && q.to != "" && k.key != "" && v.authorized
               && v.resolved.Some? && v.sendable && v.current == v.resolved && Admits(v, Parcel(v.newID, 0, v.resolved.value.name, "")))
              ==> r == Sent(Receipt(v.newID, WasQueued))
      ensures (&& old(faults) == [] && k in old(s.intents) && old(s.intents[k]).request == q
               && q.body != "" && q.to != "" && k.key != "" && v.authorized
               && (old(s.intents[k]).receipt.Some? || (old(s.intents[k]).envelope.Some? && Admits(v, old(s.intents[k]).envelope.value)))) ==> r.Sent?
      // The refusals in their order; each leaves everything as it was.
      ensures k.key == "" || q.to == "" || q.body == "" ==> r == Error(BadUsage) && s == old(s)
      ensures k.key != "" && q.to != "" && q.body != "" && !v.authorized ==> r == Error(Unauthorized) && s == old(s)
      ensures k.key != "" && q.to != "" && q.body != "" && v.authorized && k in old(s.intents) && old(s.intents[k]).request != q ==>
                r == Error(DifferentSend) && s == old(s)
      ensures k.key != "" && q.to != "" && q.body != "" && v.authorized && k !in old(s.intents) ==>
                && (v.resolved.None? ==> r == Error(NoRecipient) && s == old(s))
                && (v.resolved.Some? && v.resolved.value.status.Inactive? ==> r == Error(InactiveRecipient) && s == old(s))
                && (v.resolved.Some? && !v.resolved.value.status.Inactive? && !v.sendable ==> r == Error(Unsendable) && s == old(s))
      ensures r.Sent? || s != old(s) ==> v.authorized && k.key != "" && q.to != "" && q.body != ""
      ensures r.Sent? && (k in old(s.intents) ==> old(s.intents[k]).receipt.None?) ==>
                && v.locked && v.current.Some? && v.holder == Some(v.current.value.id) && !v.current.value.status.Inactive? && !v.startupFailed
      // A new key's envelope goes to the agent its name resolved to, with the body that was sent.
      ensures k !in old(s.intents) && k in s.intents ==>
                && v.resolved.Some?
                && var e := Parcel(v.newID, v.resolved.value.id, v.resolved.value.name, q.body);
                && (s.intents[k].envelope.Some? ==> s.intents[k].envelope.value == e)
                && (r.Sent? ==> Entry(r.receipt.outcome, e) in s.log)
    {
      if k.key == "" || q.to == "" || q.body == "" {
        return Error(BadUsage);
      }
      if !v.authorized {
        return Error(Unauthorized);
      }
      if k in s.intents && s.intents[k].request != q {
        return Error(DifferentSend);
      }
      if k in s.intents && s.intents[k].receipt.Some? {
        return Sent(s.intents[k].receipt.value);
      }
      if k !in s.intents {
        if v.resolved.None? {
          return Error(NoRecipient);
        }
        if !Reachable(v.resolved.value) {
          return Error(InactiveRecipient);
        }
        if !v.sendable {
          return Error(Unsendable);
        }
        var e := Parcel(v.newID, v.resolved.value.id, v.resolved.value.name, q.body);
        SaveKeeps(s, k, q, e);
        var ok := Put(s.(intents := s.intents[k := Intent(q, Some(e), false, None)], minted := s.minted[e.id := k]),
                      k, Intent(q, Some(e), false, None));
        if !ok {
          return Error(StepFailed);
        }
      }
      r := Settle(k, v);
    }

    /** The rest of the call, once the key has an intent without a receipt. */
    method Settle(k: Key, v: View) returns (r: Result)
      requires k in s.intents && s.intents[k].receipt.None?
      modifies this
      ensures forall k' | k' in old(s.intents) && k' != k :: k' in s.intents && s.intents[k'] == old(s.intents[k'])
      ensures forall k' | k' in s.intents :: k' in old(s.intents)
      ensures k in s.intents && s.intents[k].request == old(s.intents[k]).request && s.minted == old(s).minted
      ensures r.Sent? ==> s.intents[k].receipt == Some(r.receipt) && old(s.intents[k]).envelope.Some?
                          && r.receipt.id == old(s.intents[k]).envelope.value.id
                          && (r.receipt.outcome.IsUnknown? <==> old(s.intents[k]).attempted && r.receipt.id !in old(s).files)
      ensures old(s.intents[k]).attempted ==> s.links == old(s).links
      ensures s.links == old(s).links || exists id | Mine(s, k, id) :: s.links == old(s).links + multiset{id}
      ensures old(faults) == [] && old(s.intents[k]).envelope.Some? && Admits(v, old(s.intents[k]).envelope.value) ==> r.Sent?
      // The first of the refusals that applies is the answer, and nothing changes; a message goes out only past all.
      ensures old(s.intents[k]).envelope.None? ==> r == Error(NoEnvelope) && s == old(s)
      ensures old(s.intents[k]).envelope.Some? && !v.locked ==> r == Error(Locked) && s == old(s)
      ensures old(s.intents[k]).envelope.Some? && v.locked
              && (v.current.None? || v.holder != Some(v.current.value.id) || v.current.value.name != old(s.intents[k]).envelope.value.to) ==>
                r == Error(RegistrationChanged) && s == old(s)
      ensures old(s.intents[k]).envelope.Some? && v.locked && v.current.Some? && v.holder == Some(v.current.value.id)
              && v.current.value.name == old(s.intents[k]).envelope.value.to && v.current.value.status.Inactive? ==>
                r == Error(InactiveRecipient) && s == old(s)
      ensures old(s.intents[k]).envelope.Some? && v.locked && v.current.Some? && v.holder == Some(v.current.value.id)
              && v.current.value.name == old(s.intents[k]).envelope.value.to && !v.current.value.status.Inactive? && v.startupFailed ==>
                r == Error(StartupUnverified) && s == old(s)
      ensures r.Sent? || s != old(s) ==>
                && v.locked && v.current.Some? && v.holder == Some(v.current.value.id) && !v.current.value.status.Inactive?
                && old(s.intents[k]).envelope.Some? && v.current.value.name == old(s.intents[k]).envelope.value.to && !v.startupFailed
      // What is reported is in the log as it was saved, and an envelope is kept as it was until then.
      ensures r.Sent? ==> Entry(r.receipt.outcome, old(s.intents[k]).envelope.value) in s.log
      ensures s.intents[k].envelope.Some? ==> s.intents[k].envelope == old(s.intents[k]).envelope
    {
      hide Retained, Inv, IDOk, Names, ReceiptOk;
      var intent := s.intents[k];
      if intent.envelope.None? {
        return Error(NoEnvelope);
      }
      var e := intent.envelope.value;
      IntentAt(s, k);
      IDAt(s, e.id);
      if !v.locked {
        return Error(Locked);
      }
      if v.current.None? || v.holder != Some(v.current.value.id) || v.current.value.name != e.to {
        return Error(RegistrationChanged);
      }
      if !Reachable(v.current.value) {
        return Error(InactiveRecipient);
      }
      if v.startupFailed {
        return Error(StartupUnverified);
      }
      var outcome := WasQueued;
      if e.id !in s.files {
        if intent.attempted {
          outcome := IsUnknown;
        } else {
          AttemptKeeps(s, k);
          var ok := Put(s.(intents := s.intents[k := intent.(attempted := true)]), k, intent.(attempted := true));
          if !ok {
            return Error(StepFailed);
          }
          assert Mine(s, k, e.id);
          ok := PublishNew(k);
          if !ok {
            return Error(StepFailed);
          }
        }
      }
      var ok := Append(Entry(outcome, e));
      if !ok {
        return Error(StepFailed);
      }
      assert s.log[|s.log| - 1] == Entry(outcome, e);
      SettleKeeps(s, k, outcome);
      var settled := Intent(intent.request, None, false, Some(Receipt(e.id, outcome)));
      ok := Put(s.(intents := s.intents[k := settled]), k, settled);
      return if ok then Sent(Receipt(e.id, outcome)) else Error(StepFailed);
    }

    /** Owners of the recipient settle a message and later prune its file. */
    method Prune(id: ID)
      modifies this`s
      ensures s.intents == old(s).intents && s.links == old(s).links && s.minted == old(s).minted
      ensures s.files == old(s).files - {id}
    {
      if id in s.files {
        PruneKeeps(s, id);
        s := s.(files := s.files - {id}, pruned := s.pruned + {id});
      }
    }
  }

  datatype Event = Call(key: Key, request: Request, view: View, faults: seq<Fault>) | Pruned(id: ID)

  /** Over any calls, faults, crashes and pruning: every answer for one key is the same receipt, it
      was given to one request only, and a queued answer means the message was linked, once. */
  method Run(events: seq<Event>) returns (results: seq<Option<Result>>, s: Durable)
    requires forall i, j | 0 <= i < j < |events| :: events[i].Call? && events[j].Call? ==> events[i].view.newID != events[j].view.newID
    ensures |results| == |events|
    ensures forall i, j | 0 <= i < |results| && 0 <= j < |results| && Answered(events, results, i) && Answered(events, results, j) ::
              events[i].key == events[j].key ==> results[i] == results[j] && events[i].request == events[j].request
    ensures forall i | 0 <= i < |results| && Answered(events, results, i) ::
              results[i].value.receipt.outcome.WasQueued? ==> s.links[results[i].value.receipt.id] == 1
  {
    var m := new Mailbox(State(map[], {}, [], map[], multiset{}, {}));
    results := [];
    for n := 0 to |events|
      invariant fresh(m) && |results| == n
      invariant forall id | id in m.s.minted :: exists i | 0 <= i < n :: events[i].Call? && events[i].view.newID == id
      invariant forall i | 0 <= i < n && Answered(events, results, i) :: Saved(m.s, events[i], results[i].value.receipt)
    {
      match events[n]
      case Pruned(id) =>
        m.Prune(id);
        results := results + [None];
      case Call(k, q, v, faults) =>
        m.faults := faults;
        var r := m.Send(k, q, v);
        results := results + [Some(r)];
    }
    s := m.s;
    forall i | 0 <= i < |results| && Answered(events, results, i)
      ensures results[i].value.receipt.outcome.WasQueued? ==> s.links[results[i].value.receipt.id] == 1
    {
      ReceiptMeans(s, events[i].key);
    }
  }

  ghost predicate Answered(events: seq<Event>, results: seq<Option<Result>>, i: nat) {
    i < |events| && i < |results| && events[i].Call? && results[i].Some? && results[i].value.Sent?
  }

  ghost predicate Saved(s: State, x: Event, r: Receipt)
    requires x.Call?
  {
    x.key in s.intents && s.intents[x.key].request == x.request && s.intents[x.key].receipt == Some(r)
  }
}
