/** The status-hook journal (store/hooks.go): hooks append observations under fresh sequence
    numbers, a sweep acknowledges a prefix, and pruning keeps what is still needed. */
module StatusHooks {
  import opened Records
  import opened Sets

  datatype Kind =
    | TurnStarted | TurnFinished | TurnFailed | ActivityKind | PermissionRequested
    | CompactionStarted | CompactionFinished

  datatype Hook = Hook(sequence: nat, kind: Kind, at: Time, detail: string)

  /** A boundary a sweep must handle; every other kind only shows its latest reading. */
  predicate Terminal(k: Kind) {
    k == TurnFinished || k == TurnFailed || k == CompactionFinished
  }

  ghost predicate Increasing(hooks: seq<Hook>) {
    forall i, j | 0 <= i < j < |hooks| :: hooks[i].sequence < hooks[j].sequence
  }

  /** An older observation of a kind that shows only its latest reading. */
  ghost predicate Stale(hooks: seq<Hook>, n: Hook) {
    !Terminal(n.kind) && exists h <- hooks :: h.kind == n.kind && h.at > n.at
  }

  /** The records a new one of its kind leaves: other kinds, and its own unacknowledged boundaries. */
  predicate Stays(h: Hook, n: Hook, acknowledged: nat) {
    h.kind != n.kind || (Terminal(n.kind) && h.sequence > acknowledged)
  }

  function Kept(hooks: seq<Hook>, n: Hook, acknowledged: nat): seq<Hook> {
    if hooks == [] then []
    else
      var kept := Kept(hooks[..|hooks| - 1], n, acknowledged);
      if Stays(hooks[|hooks| - 1], n, acknowledged) then kept + [hooks[|hooks| - 1]] else kept
  }

  /** The last record of its kind. */
  predicate Latest(hooks: seq<Hook>, h: Hook) {
    forall k <- hooks :: k.kind == h.kind ==> k.sequence <= h.sequence
  }

  /** What pruning keeps of `hooks`, out of the journal `all`. */
  function Needed(all: seq<Hook>, hooks: seq<Hook>, sequence: nat): seq<Hook> {
    if hooks == [] then []
    else
      var kept := Needed(all, hooks[..|hooks| - 1], sequence);
      var h := hooks[|hooks| - 1];
      if h.sequence > sequence || Latest(all, h) then kept + [h] else kept
  }

  /** A subsequence of increasing records that keeps exactly those satisfying a test. */
  lemma {:induction false} KeptMeans(hooks: seq<Hook>, n: Hook, acknowledged: nat)
    requires Increasing(hooks)
    ensures Increasing(Kept(hooks, n, acknowledged)) && |Kept(hooks, n, acknowledged)| <= |hooks|
    ensures forall h :: h in Kept(hooks, n, acknowledged) <==> h in hooks && Stays(h, n, acknowledged)
  {
    if hooks != [] {
      var last := |hooks| - 1;
      assert hooks == hooks[..last] + [hooks[last]];
      KeptMeans(hooks[..last], n, acknowledged);
      var kept := Kept(hooks[..last], n, acknowledged);
      forall h | h in kept ensures h.sequence < hooks[last].sequence {
        assert h in hooks[..last];
      }
    }
  }

  lemma {:induction false} NeededMeans(all: seq<Hook>, hooks: seq<Hook>, sequence: nat)
    requires Increasing(hooks)
    ensures Increasing(Needed(all, hooks, sequence)) && |Needed(all, hooks, sequence)| <= |hooks|
    ensures forall h :: h in Needed(all, hooks, sequence) <==> h in hooks && (h.sequence > sequence || Latest(all, h))
    ensures |Needed(all, hooks, sequence)| == |hooks| ==> Needed(all, hooks, sequence) == hooks
  {
    if hooks != [] {
      var last := |hooks| - 1;
      assert hooks == hooks[..last] + [hooks[last]];
      NeededMeans(all, hooks[..last], sequence);
      var kept := Needed(all, hooks[..last], sequence);
      forall h | h in kept ensures h.sequence < hooks[last].sequence {
        assert h in hooks[..last];
      }
    }
  }

  function Unacknowledged(hooks: seq<Hook>, sequence: nat): seq<Hook> {
    if hooks == [] then []
    else
      var rest := Unacknowledged(hooks[..|hooks| - 1], sequence);
      if hooks[|hooks| - 1].sequence > sequence then rest + [hooks[|hooks| - 1]] else rest
  }

  /** The kinds whose latest record, out of `all`, is settled and among `hooks`. */
  ghost function SettledKinds(all: seq<Hook>, hooks: seq<Hook>, sequence: nat): set<Kind> {
    set h <- hooks | h.sequence <= sequence && Latest(all, h) :: h.kind
  }

  const KINDS := {TurnStarted, TurnFinished, TurnFailed, ActivityKind, PermissionRequested, CompactionStarted, CompactionFinished}

  lemma EveryKind(k: Kind)
    ensures k in KINDS
  {
    match k
    case TurnStarted =>
    case TurnFinished =>
    case TurnFailed =>
    case ActivityKind =>
    case PermissionRequested =>
    case CompactionStarted =>
    case CompactionFinished =>
  }

  /** Settled history does not accumulate: after pruning, the journal holds at most one settled
      record of each of the seven kinds beside the unacknowledged ones. */
  lemma PrunedIsSmall(all: seq<Hook>, sequence: nat)
    requires Increasing(all)
    ensures |Needed(all, all, sequence)| <= 7 + |Unacknowledged(all, sequence)|
  {
    PrunedSize(all, all, sequence);
    forall k | k in SettledKinds(all, all, sequence) ensures k in KINDS {
      EveryKind(k);
    }
    SubsetIsNoLarger(SettledKinds(all, all, sequence), KINDS);
  }

  lemma {:induction false} PrunedSize(all: seq<Hook>, hooks: seq<Hook>, sequence: nat)
    requires Increasing(hooks) && forall h <- hooks :: h in all
    ensures |Needed(all, hooks, sequence)| == |SettledKinds(all, hooks, sequence)| + |Unacknowledged(hooks, sequence)|
  {
    if hooks != [] {
      var init, h := hooks[..|hooks| - 1], hooks[|hooks| - 1];
      assert hooks == init + [h];
      PrunedSize(all, init, sequence);
      KindCounted(all, init, h, sequence);
    }
  }

  lemma KindCounted(all: seq<Hook>, init: seq<Hook>, h: Hook, sequence: nat)
    requires h in all && forall k <- init :: k.sequence < h.sequence
    ensures |SettledKinds(all, init + [h], sequence)| ==
              |SettledKinds(all, init, sequence)| + (if h.sequence <= sequence && Latest(all, h) then 1 else 0)
  {
    var before, after := SettledKinds(all, init, sequence), SettledKinds(all, init + [h], sequence);
    if h.sequence <= sequence && Latest(all, h) {
      assert h in init + [h];
      assert after == before + {h.kind};
      forall k <- init | Latest(all, k) ensures k.kind != h.kind {
      }
    } else {
      assert after == before;
    }
  }

  lemma AppendInOrder(hooks: seq<Hook>, h: Hook)
    requires Increasing(hooks) && forall k <- hooks :: k.sequence < h.sequence
    ensures Increasing(hooks + [h])
  {
    forall k | 0 <= k < |hooks| ensures hooks[k] in hooks {
    }
  }

  ghost predicate Shown(hooks: seq<Hook>, h: Hook) {
    exists k <- hooks :: k.kind == h.kind && k.at >= h.at && k.sequence >= h.sequence
  }

  /** The journal against everything ever recorded: numbers only grow and the newest record is never
      dropped, so none is reused; unacknowledged boundaries are all there; every other kind shows its
      latest reading, once. */
  ghost predicate Inv(hooks: seq<Hook>, issued: seq<Hook>, acknowledged: nat) {
    && Increasing(hooks) && Increasing(issued) && SameLast(hooks, issued)
    && (forall h <- hooks :: h in issued) && Boundaries(hooks, issued, acknowledged)
    && (forall h <- issued :: !Terminal(h.kind) ==> Shown(hooks, h)) && ShownOnce(hooks)
  }

  ghost predicate SameLast(hooks: seq<Hook>, issued: seq<Hook>) {
    && (hooks == [] <==> issued == [])
    && (hooks != [] ==> hooks[|hooks| - 1] == issued[|issued| - 1])
  }

  ghost predicate Boundaries(hooks: seq<Hook>, issued: seq<Hook>, acknowledged: nat) {
    forall h <- issued :: Terminal(h.kind) && h.sequence > acknowledged ==> h in hooks
  }

  ghost predicate ShownOnce(hooks: seq<Hook>) {
    forall h, k | h in hooks && k in hooks :: h.kind == k.kind && !Terminal(h.kind) ==> h == k
  }

  function LastSequence(hooks: seq<Hook>): nat {
    if hooks == [] then 0 else hooks[|hooks| - 1].sequence
  }

  lemma LastIsGreatest(hooks: seq<Hook>)
    requires Increasing(hooks)
    ensures forall h <- hooks :: h.sequence <= LastSequence(hooks)
  {
  }

  lemma WriteInOrder(hooks: seq<Hook>, issued: seq<Hook>, acknowledged: nat, n: Hook)
    requires Inv(hooks, issued, acknowledged)
    ensures var next := n.(sequence := LastSequence(hooks) + 1);
            && Increasing(Kept(hooks, n, acknowledged) + [next]) && Increasing(issued + [next])
            && forall k <- hooks :: k.sequence < next.sequence
  {
    var next := n.(sequence := LastSequence(hooks) + 1);
    KeptMeans(hooks, n, acknowledged);
    LastIsGreatest(hooks);
    LastIsGreatest(issued);
    AppendInOrder(Kept(hooks, n, acknowledged), next);
    AppendInOrder(issued, next);
  }

  lemma WriteKeeps(hooks: seq<Hook>, issued: seq<Hook>, acknowledged: nat, n: Hook)
    requires Inv(hooks, issued, acknowledged) && !Stale(hooks, n)
    ensures var next := n.(sequence := LastSequence(hooks) + 1);
            Inv(Kept(hooks, n, acknowledged) + [next], issued + [next], acknowledged)
  {
    var next := n.(sequence := LastSequence(hooks) + 1);
    WriteInOrder(hooks, issued, acknowledged, n);
    KeptMeans(hooks, n, acknowledged);
    var kept := Kept(hooks, n, acknowledged);
    var after, all := kept + [next], issued + [next];
    hide Increasing, LastSequence, Kept, Shown, Stale;
    assert forall h :: h in after <==> h in kept || h == next;
    assert forall h :: h in all <==> h in issued || h == next;
    assert after[|after| - 1] == next && all[|all| - 1] == next;
    hide Stays, ShownOnce, Boundaries;
    WriteKeepsKinds(hooks, kept, acknowledged, n, next);
    WriteKeepsBoundaries(hooks, issued, kept, acknowledged, n, next);
    forall h <- all | !Terminal(h.kind) ensures Shown(after, h) {
      assert h != next ==> Shown(hooks, h);
      assert forall k <- hooks :: Stays(k, n, acknowledged) ==> k in after;
      WriteShows(hooks, issued, acknowledged, n, next, after, h);
    }
  }

  lemma WriteKeepsKinds(hooks: seq<Hook>, kept: seq<Hook>, acknowledged: nat, n: Hook, next: Hook)
    requires ShownOnce(hooks) && next.kind == n.kind
    requires forall h :: h in kept <==> h in hooks && Stays(h, n, acknowledged)
    ensures ShownOnce(kept + [next])
  {
  }

  lemma WriteKeepsBoundaries(hooks: seq<Hook>, issued: seq<Hook>, kept: seq<Hook>, acknowledged: nat, n: Hook, next: Hook)
    requires Boundaries(hooks, issued, acknowledged) && next.kind == n.kind
    requires forall h :: h in kept <==> h in hooks && Stays(h, n, acknowledged)
    ensures Boundaries(kept + [next], issued + [next], acknowledged)
  {
  }

  lemma WriteShows(hooks: seq<Hook>, issued: seq<Hook>, acknowledged: nat, n: Hook, next: Hook, after: seq<Hook>, h: Hook)
    requires !Stale(hooks, n) && !Terminal(h.kind) && (h == next || Shown(hooks, h))
    requires next == n.(sequence := next.sequence) && forall k <- hooks :: k.sequence < next.sequence
    requires next in after && forall k <- hooks :: Stays(k, n, acknowledged) ==> k in after
    ensures Shown(after, h)
  {
    if h != next {
      var k :| k in hooks && k.kind == h.kind && k.at >= h.at && k.sequence >= h.sequence;
      if k.kind == n.kind {
        assert k.at <= n.at;
        assert next.kind == h.kind && next.at >= h.at && next.sequence >= h.sequence;
      } else {
        assert k in after;
      }
    }
  }

  lemma PruneKeeps(hooks: seq<Hook>, issued: seq<Hook>, acknowledged: nat, sequence: nat)
    requires Inv(hooks, issued, acknowledged) && sequence <= acknowledged
    ensures Inv(Needed(hooks, hooks, sequence), issued, acknowledged)
  {
    hide Increasing, LastSequence, Needed, Latest, Boundaries;
    NeededMeans(hooks, hooks, sequence);
    var after := Needed(hooks, hooks, sequence);
    if hooks != [] {
      LastStaysLast(hooks, sequence);
    } else {
      assert Needed(hooks, hooks, sequence) == hooks;
    }
    PruneKeepsBoundaries(hooks, issued, after, acknowledged, sequence);
    forall h <- issued | !Terminal(h.kind) ensures Shown(after, h) {
      PruneShows(hooks, after, sequence, h);
    }
    hide Shown;
  }

  lemma PruneKeepsBoundaries(hooks: seq<Hook>, issued: seq<Hook>, after: seq<Hook>, acknowledged: nat, sequence: nat)
    requires Boundaries(hooks, issued, acknowledged) && sequence <= acknowledged
    requires forall h <- hooks :: h.sequence > sequence ==> h in after
    ensures Boundaries(after, issued, acknowledged)
  {
  }

  lemma PruneShows(hooks: seq<Hook>, after: seq<Hook>, sequence: nat, h: Hook)
    requires ShownOnce(hooks) && Shown(hooks, h) && !Terminal(h.kind)
    requires forall k :: k in after <==> k in hooks && (k.sequence > sequence || Latest(hooks, k))
    ensures Shown(after, h)
  {
    hide Latest;
    var k :| k in hooks && k.kind == h.kind && k.at >= h.at && k.sequence >= h.sequence;
    OnlyIsLatest(hooks, k);
    assert k in after;
  }

  lemma OnlyIsLatest(hooks: seq<Hook>, k: Hook)
    requires k in hooks && forall h <- hooks :: h.kind == k.kind ==> h == k
    ensures Latest(hooks, k)
  {
  }

  lemma LastStaysLast(hooks: seq<Hook>, sequence: nat)
    requires hooks != [] && Increasing(hooks)
    ensures Needed(hooks, hooks, sequence) != []
    ensures var kept := Needed(hooks, hooks, sequence); kept[|kept| - 1] == hooks[|hooks| - 1]
  {
    LastIsGreatest(hooks);
    assert Latest(hooks, hooks[|hooks| - 1]);
  }

  lemma AcknowledgeKeeps(hooks: seq<Hook>, issued: seq<Hook>, acknowledged: nat, sequence: nat)
    requires Inv(hooks, issued, acknowledged) && sequence >= acknowledged
    ensures Inv(hooks, issued, sequence)
  {
  }

  lemma InOrder(hooks: seq<Hook>, issued: seq<Hook>, acknowledged: nat)
    requires Inv(hooks, issued, acknowledged)
    ensures Increasing(hooks)
  {
  }

  /** What a write decides and leaves, kind by kind: a turn that finished or failed and a compaction
      that finished are boundaries, never stale and kept until they are acknowledged; a record of any
      other kind is refused when a later reading is shown, and takes the place of an earlier one. */
  lemma WriteMeans(hooks: seq<Hook>, n: Hook, acknowledged: nat)
    requires Increasing(hooks)
    ensures n.kind in {TurnFinished, TurnFailed, CompactionFinished} ==> !Stale(hooks, n)
    ensures n.kind !in {TurnFinished, TurnFailed, CompactionFinished} ==>
              (Stale(hooks, n) <==> exists i | 0 <= i < |hooks| :: hooks[i].kind == n.kind && n.at < hooks[i].at)
    ensures var next := n.(sequence := LastSequence(hooks) + 1);
            && next.sequence == (if hooks == [] then 1 else hooks[|hooks| - 1].sequence + 1)
            && (forall h <- hooks :: h.sequence < next.sequence)
            && forall h :: h in Kept(hooks, n, acknowledged) + [next] <==>
                 || h == next
                 || (&& h in hooks
                     && (h.kind == n.kind ==>
                           n.kind in {TurnFinished, TurnFailed, CompactionFinished} && acknowledged < h.sequence))
  {
    KeptMeans(hooks, n, acknowledged);
    LastIsGreatest(hooks);
  }

  /** What pruning leaves: what is not settled yet, and of each kind the record with the greatest
      number; in the order they had. */
  lemma PruneMeans(hooks: seq<Hook>, sequence: nat)
    requires Increasing(hooks)
    ensures var kept := Needed(hooks, hooks, sequence);
            && (forall i, j | 0 <= i < j < |kept| :: kept[i].sequence < kept[j].sequence)
            && forall h :: h in kept <==>
                 && h in hooks
                 && (sequence < h.sequence || !exists k <- hooks :: k.kind == h.kind && h.sequence < k.sequence)
  {
    NeededMeans(hooks, hooks, sequence);
    forall h <- hooks
      ensures Latest(hooks, h) <==> !exists k <- hooks :: k.kind == h.kind && h.sequence < k.sequence
    {
      if !Latest(hooks, h) {
        var k :| k in hooks && k.kind == h.kind && k.sequence > h.sequence;
      }
    }
    hide Latest, Needed;
  }

  class Journal {
    var hooks: seq<Hook>
    /** The sequence the agent's record acknowledges. */
    var acknowledged: nat
    /** Every hook ever recorded, in order. */
    ghost var issued: seq<Hook>

    ghost predicate Valid()
      reads this
    {
      Inv(hooks, issued, acknowledged)
    }

    constructor ()
      ensures Valid() && hooks == [] && issued == [] && acknowledged == 0
    {
      hooks, acknowledged, issued := [], 0, [];
    }

    /** The greatest number used, unless an observation newer than `n` is already shown. */
    method NextSequence(n: Hook) returns (stale: bool, sequence: nat)
      requires Increasing(hooks)
      ensures stale <==> Stale(hooks, n)
      ensures stale <==>
        && n.kind !in {TurnFinished, TurnFailed, CompactionFinished}
        && exists i | 0 <= i < |hooks| :: hooks[i].kind == n.kind && n.at < hooks[i].at
      ensures !stale ==> sequence == LastSequence(hooks)
    {
      sequence := 0;
      for i := 0 to |hooks|
        invariant sequence == if i == 0 then 0 else hooks[i - 1].sequence
        invariant forall j | 0 <= j < i :: Terminal(n.kind) || hooks[j].kind != n.kind || hooks[j].at <= n.at
      {
        if hooks[i].sequence > sequence {
          sequence := hooks[i].sequence;
        }
        if !Terminal(n.kind) && hooks[i].kind == n.kind && hooks[i].at > n.at {
          assert hooks[i] in hooks;
          return true, sequence;
        }
      }
      stale := false;
    }

    /** Records an observation under the next sequence number, unless a later one of its kind is
        already shown. */
    method WriteStatusHook(n: Hook) returns (recorded: bool)
      requires Valid()
      modifies this`hooks, this`issued
      ensures Valid()
      ensures recorded <==> !Stale(old(hooks), n)
      ensures !recorded ==> hooks == old(hooks) && issued == old(issued)
      ensures recorded ==>
        var next := n.(sequence := LastSequence(old(hooks)) + 1);
        hooks == Kept(old(hooks), n, acknowledged) + [next] && issued == old(issued) + [next]
      ensures !recorded <==>
        && n.kind !in {TurnFinished, TurnFailed, CompactionFinished}
        && exists i | 0 <= i < |old(hooks)| :: old(hooks)[i].kind == n.kind && n.at < old(hooks)[i].at
    {
      hide Inv, Increasing, Stale, LastSequence;
      InOrder(hooks, issued, acknowledged);
      var stale, sequence := NextSequence(n);
      if stale {
        return false;
      }
      var next := [];
      for i := 0 to |hooks|
        invariant next == Kept(hooks[..i], n, acknowledged)
      {
        assert hooks[..i + 1][..i] == hooks[..i];
        if hooks[i].kind != n.kind || (Terminal(n.kind) && hooks[i].sequence > acknowledged) {
          next := next + [hooks[i]];
        }
      }
      assert hooks[..|hooks|] == hooks;
      WriteKeeps(hooks, issued, acknowledged, n);
      // What is kept is in order and older than the new record, so sorting changes nothing.
      hooks := next + [n.(sequence := sequence + 1)];
      issued := issued + [n.(sequence := sequence + 1)];
      recorded := true;
    }

    /** The sweep acknowledges what it handled; an older acknowledgment changes nothing. */
    method Acknowledge(sequence: nat)
      requires Valid()
      modifies this`acknowledged
      ensures Valid() && acknowledged == if sequence > old(acknowledged) then sequence else old(acknowledged)
    {
      hide Inv;
      if sequence > acknowledged {
        AcknowledgeKeeps(hooks, issued, acknowledged, sequence);
        acknowledged := sequence;
      }
    }

    /** The last number of each kind. */
    method LatestOfKinds() returns (latest: map<Kind, nat>)
      requires Increasing(hooks)
      ensures forall h <- hooks :: h.kind in latest && (latest[h.kind] == h.sequence <==> Latest(hooks, h))
    {
      latest := map[];
      for i := 0 to |hooks|
        invariant forall j | 0 <= j < i :: hooks[j].kind in latest && hooks[j].sequence <= latest[hooks[j].kind]
        invariant forall k <- latest :: exists j | 0 <= j < i :: hooks[j].kind == k && hooks[j].sequence == latest[k]
      {
        latest := latest[hooks[i].kind := hooks[i].sequence];
      }
      forall h <- hooks ensures h.kind in latest && (latest[h.kind] == h.sequence <==> Latest(hooks, h)) {
        var j :| 0 <= j < |hooks| && hooks[j].kind == h.kind && hooks[j].sequence == latest[h.kind];
        assert hooks[j] in hooks;
      }
    }

    /** Drops settled history up to an acknowledged sequence. */
    method PruneStatusHooks(sequence: nat)
      requires Valid() && sequence <= acknowledged
      modifies this`hooks
      ensures Valid()
      ensures hooks == Needed(old(hooks), old(hooks), sequence)
      ensures forall h :: h in hooks <==>
        && h in old(hooks)
        && (sequence < h.sequence || !exists k <- old(hooks) :: k.kind == h.kind && h.sequence < k.sequence)
      ensures |hooks| <= 7 + |Unacknowledged(old(hooks), sequence)|
    {
      hide Inv, Increasing, Latest, Needed, Unacknowledged;
      InOrder(hooks, issued, acknowledged);
      var kept := Pruned(sequence);
      NeededMeans(hooks, hooks, sequence);
      PrunedIsSmall(hooks, sequence);
      PruneKeeps(hooks, issued, acknowledged, sequence);
      PruneMeans(hooks, sequence);
      if |kept| == |hooks| {
        return;
      }
      hooks := kept;
    }

    method Pruned(sequence: nat) returns (kept: seq<Hook>)
      requires Increasing(hooks)
      ensures kept == Needed(hooks, hooks, sequence)
    {
      hide Increasing, Latest;
      var latest := LatestOfKinds();
      kept := [];
      for i := 0 to |hooks|
        invariant kept == Needed(hooks, hooks[..i], sequence)
      {
        assert hooks[..i + 1][..i] == hooks[..i];
        assert hooks[i] in hooks;
        if hooks[i].sequence > sequence || latest[hooks[i].kind] == hooks[i].sequence {
          kept := kept + [hooks[i]];
        }
      }
      assert hooks[..|hooks|] == hooks;
    }
  }
}
