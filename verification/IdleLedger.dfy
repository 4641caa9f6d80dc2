/** The idle-work ledger (store/team_idle.go): an intent is saved before an inbox link, and the
    next reader under the same lock counts the link it finds. Every accepted publication is counted
    exactly once, whatever crashes, provided no link falls between a reader's resolution and the
    listing it deletes from. */
module IdleLedger {
  import opened Records

  type Hitch = nat

  /** One publication: the recipient and the envelope's fresh identity. */
  datatype Publication = Publication(recipient: Hitch, id: nat)

  datatype Ledger = Ledger(work: map<Hitch, nat>, pending: Option<Publication>)

  const MAX_WORK: nat := 0xFFFF_FFFF_FFFF_FFFF

  function Work(l: Ledger, r: Hitch): nat {
    if r in l.work then l.work[r] else 0
  }

  /** The pending publication is counted if its file exists, and forgotten either way. */
  function Resolved(l: Ledger, found: bool): Ledger {
    match l.pending
    case None => l
    case Some(p) =>
      Ledger(if found then l.work[p.recipient := Work(l, p.recipient) + 1] else l.work, None)
  }

  function Pruned(l: Ledger, live: set<Hitch>): Ledger {
    l.(work := map r | r in l.work && r in live :: l.work[r])
  }

  predicate Exhausted(l: Ledger, found: bool) {
    l.pending.Some? && found && Work(l, l.pending.value.recipient) == MAX_WORK
  }

  /** The ledger as a reader that holds its lock sees and saves it. */
  class LockedIdle {
    var saved: Ledger
    var inbox: map<Publication, Directory>
    var live: set<Hitch>

    constructor (saved: Ledger, inbox: map<Publication, Directory>, live: set<Hitch>)
      ensures this.saved == saved && this.inbox == inbox && this.live == live
    {
      this.saved, this.inbox, this.live := saved, inbox, live;
    }

    /** Looks for the pending file in one directory after another, saves the resolution, and then
        drops the counters of registrations that are gone. A counter at its maximum is an error that
        saves nothing. */
    method Read() returns (ok: bool, l: Ledger)
      modifies this`saved
      ensures ok <==> !Exhausted(old(saved), old(saved).pending.Some? && old(saved).pending.value in inbox)
      ensures !ok ==> saved == old(saved)
      ensures ok ==> saved == l == Pruned(Resolved(old(saved), old(saved).pending.Some? && old(saved).pending.value in inbox), live)
      ensures !ok <==>
        var p := old(saved).pending;
        && p.Some? && p.value in inbox && p.value.recipient in old(saved).work
        && old(saved).work[p.value.recipient] == 0xFFFF_FFFF_FFFF_FFFF
      ensures ok ==> saved.pending.None?
      ensures ok ==> forall r :: r in saved.work <==>
        && r in live
        && (r in old(saved).work || exists p <- inbox :: old(saved).pending == Some(p) && p.recipient == r)
      ensures ok ==> forall r <- saved.work ::
        saved.work[r] == (if r in old(saved).work then old(saved).work[r] else 0)
                         + (if exists p <- inbox :: old(saved).pending == Some(p) && p.recipient == r then 1 else 0)
    {
      l := saved;
      if l.pending.Some? {
        var p := l.pending.value;
        var directories := [New, Cur, FailedDir];
        assert directories[0] == New && directories[1] == Cur && directories[2] == FailedDir;
        for i := 0 to |directories|
          invariant l == saved == old(saved)
          invariant forall k | 0 <= k < i :: !(p in inbox && inbox[p] == directories[k])
        {
          if p in inbox && inbox[p] == directories[i] {
            if Work(l, p.recipient) == MAX_WORK {
              return false, l;
            }
            l := l.(work := l.work[p.recipient := Work(l, p.recipient) + 1]);
            break;
          }
        }
        assert p in inbox ==> exists i | 0 <= i < 3 :: inbox[p] == directories[i];
        l := l.(pending := None);
        saved := l;
      }
      var rest, pruned := l.work.Keys, false;
      ghost var resolved := l;
      while rest != {}
        invariant rest <= l.work.Keys <= resolved.work.Keys && l.pending == resolved.pending
        invariant forall r <- resolved.work.Keys :: r !in rest ==> (r in l.work <==> r in live)
        invariant forall r <- rest :: r in l.work
        invariant forall r <- l.work :: l.work[r] == resolved.work[r]
        invariant saved == resolved && (!pruned ==> l == resolved)
      {
        var r :| r in rest;
        rest := rest - {r};
        if r !in live {
          l := l.(work := l.work - {r});
          pruned := true;
        }
      }
      if pruned {
        saved := l;
      }
      assert l.work == Pruned(resolved, live).work;
      ok := true;
    }
  }

  type Pid = nat

  /** Who is where. A publisher resolves, reserves, links and closes under the ledger's lock; a
      remover resolves under it, and then deletes from a listing it made before (`seen`) or, when it
      clears scheduled mail, from one it makes afterwards. */
  datatype Pc =
    | Publishing(p: Publication)
    | Checked(p: Publication, found: bool)
    | ReadyToReserve(p: Publication)
    | Reserved(p: Publication)
    | Resolving(seen: Option<set<Publication>>)
    | Looked(seen: Option<set<Publication>>, found: bool)
    | Clearing
    | Removing(listing: set<Publication>)

  datatype State = State(
    ledger: Ledger, files: set<Publication>, live: set<Hitch>, lock: Option<Pid>, procs: map<Pid, Pc>,
    used: set<Publication>, linked: set<Publication>, links: map<Hitch, nat>,
    joined: set<Hitch>)

  datatype Action =
    | Join(r: Hitch)
    | Leave(r: Hitch)
    | Publish(pid: Pid, p: Publication)
    | Remove(pid: Pid, clear: bool)
    | Check(pid: Pid)
    | Save(pid: Pid)
    | Prune(pid: Pid)
    | Reserve(pid: Pid)
    | Link(pid: Pid)
    | ListToClear(pid: Pid)
    | Delete(pid: Pid, p: Publication)
    | Die(pid: Pid)

  predicate Locks(pc: Pc) {
    !pc.Clearing? && !pc.Removing?
  }

  function Links(s: State, r: Hitch): nat {
    if r in s.links then s.links[r] else 0
  }

  predicate Unresolved(s: State, p: Publication) {
    s.ledger.pending == Some(p) && p in s.files
  }

  predicate Found(s: State) {
    s.ledger.pending.Some? && s.ledger.pending.value in s.files
  }

  predicate Enabled(s: State, a: Action) {
    match a
    case Join(r) => r !in s.joined
    case Leave(r) => r in s.live
    case Publish(pid, p) => pid !in s.procs && s.lock.None? && p !in s.used && p.recipient in s.live
    case Remove(pid, clear) => pid !in s.procs && s.lock.None?
    case Check(pid) => pid in s.procs && (s.procs[pid].Publishing? || s.procs[pid].Resolving?)
    case Save(pid) => pid in s.procs && (s.procs[pid].Checked? || s.procs[pid].Looked?)
                      && !Exhausted(s.ledger, s.procs[pid].found)
    case Prune(pid) => s.lock == Some(pid) && s.ledger.pending.None?
    case Reserve(pid) => pid in s.procs && s.procs[pid].ReadyToReserve?
    case Link(pid) => pid in s.procs && s.procs[pid].Reserved? && s.procs[pid].p.recipient in s.live
    case ListToClear(pid) => pid in s.procs && s.procs[pid].Clearing?
    case Delete(pid, p) => pid in s.procs && s.procs[pid].Removing? && p in s.procs[pid].listing
    case Die(pid) => pid in s.procs
  }

  function Gone(s: State, pid: Pid): State {
    s.(procs := s.procs - {pid}, lock := if s.lock == Some(pid) then None else s.lock)
  }

  /** One atomic step; a publisher that linked closes the lock and is done. */
  function Step(s: State, a: Action): State
    requires Enabled(s, a)
  {
    match a
    case Join(r) => s.(live := s.live + {r}, joined := s.joined + {r})
    case Leave(r) => s.(live := s.live - {r}, files := set p | p in s.files && p.recipient != r)
    case Publish(pid, p) => s.(procs := s.procs[pid := Publishing(p)], lock := Some(pid), used := s.used + {p})
    case Remove(pid, clear) =>
      s.(procs := s.procs[pid := Resolving(if clear then None else Some(s.files))], lock := Some(pid))
    case Check(pid) =>
      s.(procs := s.procs[pid := match s.procs[pid]
                                 case Publishing(p) => Checked(p, Found(s))
                                 case Resolving(seen) => Looked(seen, Found(s))])
    case Save(pid) =>
      match s.procs[pid] {
        case Checked(p, found) => s.(ledger := Resolved(s.ledger, found), procs := s.procs[pid := ReadyToReserve(p)])
        case Looked(seen, found) =>
          s.(ledger := Resolved(s.ledger, found), lock := None,
             procs := s.procs[pid := if seen.Some? then Removing(seen.value) else Clearing])
      }
    case Prune(pid) => s.(ledger := Pruned(s.ledger, s.live))
    case Reserve(pid) =>
      s.(ledger := s.ledger.(pending := Some(s.procs[pid].p)), procs := s.procs[pid := Reserved(s.procs[pid].p)])
    case Link(pid) =>
      var p := s.procs[pid].p;
      Gone(s.(files := s.files + {p}, linked := s.linked + {p}, links := s.links[p.recipient := Links(s, p.recipient) + 1]), pid)
    case ListToClear(pid) => s.(procs := s.procs[pid := Removing(s.files)])
    case Delete(pid, p) => s.(files := s.files - {p})
    case Die(pid) => Gone(s, pid)
  }

  /** For a live recipient, the counted work plus one unresolved publication is the number of links. */
  ghost predicate Exact(s: State, r: Hitch) {
    Links(s, r) == Work(s.ledger, r) +
      (if s.ledger.pending.Some? && s.ledger.pending.value.recipient == r && s.ledger.pending.value in s.files then 1 else 0)
  }

  /** The look at the inbox still holds, unless the recipient was dropped since. */
  ghost predicate Current(s: State, found: bool) {
    s.ledger.pending.Some? && s.ledger.pending.value.recipient in s.live ==> found == Found(s)
  }

  /** What a process knows while it is where it is. */
  ghost predicate Knows(s: State, pid: Pid, pc: Pc) {
    && (Locks(pc) <==> s.lock == Some(pid))
    && match pc
       case Publishing(p) => p in s.used && p !in s.linked
       case Checked(p, found) => p in s.used && p !in s.linked && Current(s, found)
       case ReadyToReserve(p) => p in s.used && p !in s.linked && s.ledger.pending.None?
       case Reserved(p) => p in s.used && p !in s.linked && s.ledger.pending == Some(p)
       case Resolving(seen) => seen.Some? ==> seen.value <= s.linked
       case Looked(seen, found) => Current(s, found) && (seen.Some? ==> seen.value <= s.linked)
       case Clearing => true
       case Removing(listing) =>
         listing <= s.linked && (s.ledger.pending.Some? ==> s.ledger.pending.value !in listing)
  }

  ghost predicate Inv(s: State) {
    && s.files <= s.linked <= s.used
    && (s.lock.Some? ==> s.lock.value in s.procs)
    && (forall pid <- s.procs :: Knows(s, pid, s.procs[pid]))
    && (forall r <- s.live :: Exact(s, r))
    && (s.ledger.pending.Some? ==> s.ledger.pending.value in s.used)
    && (forall p <- s.used :: p.recipient in s.joined)
    && s.live <= s.joined && s.links.Keys <= s.joined && s.ledger.work.Keys <= s.joined
  }

  /** The clearing listing must not contain a publication that is linked but not yet resolved. */
  predicate Atomic(s: State, a: Action) {
    a.ListToClear? ==> !Found(s)
  }

  lemma KnowsStays(s: State, a: Action)
    requires Inv(s) && Enabled(s, a) && Atomic(s, a)
    ensures var n := Step(s, a);
            && (n.lock.Some? ==> n.lock.value in n.procs)
            && forall pid <- n.procs :: Knows(n, pid, n.procs[pid])
  {
    var n := Step(s, a);
    forall pid <- n.procs ensures Knows(n, pid, n.procs[pid]) {
      if pid in s.procs {
        assert Knows(s, pid, s.procs[pid]);
      }
      if a.Delete? {
        assert Knows(s, a.pid, s.procs[a.pid]);
      }
    }
  }

  lemma ExactStays(s: State, a: Action)
    requires Inv(s) && Enabled(s, a) && Atomic(s, a)
    ensures forall r <- Step(s, a).live :: Exact(Step(s, a), r)
  {
    var n := Step(s, a);
    forall r <- n.live ensures Exact(n, r) {
      assert a != Join(r) ==> Exact(s, r);
      if a.Save? || a.Link? || a.Reserve? || a.Delete? {
        assert Knows(s, a.pid, s.procs[a.pid]);
      }
    }
  }

  lemma StepKeeps(s: State, a: Action)
    requires Inv(s) && Enabled(s, a) && Atomic(s, a)
    ensures Inv(Step(s, a))
  {
    KnowsStays(s, a);
    ExactStays(s, a);
    if a.Publish? || a.Link? || a.Reserve? {
      assert a.Publish? || Knows(s, a.pid, s.procs[a.pid]);
    }
  }

  datatype Outcome = Stuck | At(state: State)

  const INITIAL := State(Ledger(map[], None), {}, {}, None, map[], {}, {}, map[], {})

  /** The state a run ends in; `Stuck` when an action was not enabled or, for an atomic run, when a
      link fell between a clearing reader's resolution and its listing. */
  function After(run: seq<Action>, atomic: bool): Outcome {
    if run == [] then At(INITIAL)
    else
      var before := After(run[..|run| - 1], atomic);
      var a := run[|run| - 1];
      if before.Stuck? || !Enabled(before.state, a) || (atomic && !Atomic(before.state, a)) then Stuck
      else At(Step(before.state, a))
  }

  lemma {:induction false} ReachedKeeps(run: seq<Action>)
    requires After(run, true).At?
    ensures Inv(After(run, true).state)
  {
    if run != [] {
      ReachedKeeps(run[..|run| - 1]);
      StepKeeps(After(run[..|run| - 1], true).state, run[|run| - 1]);
    }
  }

  /** Exactly once: over every interleaving of publishers and removers and every crash point, a live
      recipient's counter plus one unresolved publication is the number of its completed links. */
  lemma CountedExactlyOnce(run: seq<Action>, r: Hitch)
    requires After(run, true).At? && r in After(run, true).state.live
    ensures Exact(After(run, true).state, r)
  {
    ReachedKeeps(run);
  }

  /** Deleting a file keeps the count exactly when that file is not a linked publication still
      unresolved: the one deletion `Atomic` rules out. */
  lemma DeleteKeepsIff(s: State, pid: Pid, p: Publication)
    requires Enabled(s, Delete(pid, p)) && Exact(s, p.recipient) && p in s.files
    ensures Exact(Step(s, Delete(pid, p)), p.recipient) <==> !Unresolved(s, p)
  {
  }

  lemma Extends(run: seq<Action>, a: Action, atomic: bool)
    requires After(run, atomic).At? && Enabled(After(run, atomic).state, a)
    requires atomic ==> Atomic(After(run, atomic).state, a)
    ensures After(run + [a], atomic) == At(Step(After(run, atomic).state, a))
  {
    assert (run + [a])[..|run + [a]| - 1] == run;
  }

  const LOST := Publication(0, 0)

  const RESOLVED_TO_CLEAR := State(Ledger(map[], None), {}, {0}, None, map[1 := Clearing], {}, {}, map[], {0})

  const LINKED_BEHIND := State(
    Ledger(map[], Some(LOST)), {LOST}, {0}, None, map[1 := Clearing], {LOST}, {LOST}, map[0 := 1], {0})

  lemma ResolvesToClear() returns (run: seq<Action>)
    ensures After(run, false) == At(RESOLVED_TO_CLEAR)
  {
    run := [];
    Extends(run, Join(0), false);
    run := run + [Join(0)];
    Extends(run, Remove(1, true), false);
    run := run + [Remove(1, true)];
    Extends(run, Check(1), false);
    run := run + [Check(1)];
    Extends(run, Save(1), false);
    run := run + [Save(1)];
  }

  lemma ReservesBehind() returns (run: seq<Action>)
    ensures After(run, false) == At(RESOLVED_TO_CLEAR.(
      lock := Some(2), procs := map[1 := Clearing, 2 := ReadyToReserve(LOST)], used := {LOST}))
  {
    run := ResolvesToClear();
    Extends(run, Publish(2, LOST), false);
    run := run + [Publish(2, LOST)];
    Extends(run, Check(2), false);
    run := run + [Check(2)];
    Extends(run, Save(2), false);
    run := run + [Save(2)];
  }

  lemma LinksBehind() returns (run: seq<Action>)
    ensures After(run, false) == At(LINKED_BEHIND)
  {
    run := ReservesBehind();
    Extends(run, Reserve(2), false);
    run := run + [Reserve(2)];
    Extends(run, Link(2), false);
    run := run + [Link(2)];
    assert After(run, false).state.procs == map[1 := Clearing];
  }

  /** Without that assumption a count is lost: a clearing remover resolves, a publisher links, the
      remover lists and deletes the new file, and the next reader finds nothing to count. */
  lemma ClearingCanLoseACount() returns (run: seq<Action>)
    ensures After(run, false).At?
    ensures var s := After(run, false).state; 0 in s.live && s.ledger.pending.None? && !Exact(s, 0)
  {
    run := LinksBehind();
    Extends(run, ListToClear(1), false);
    run := run + [ListToClear(1)];
    Extends(run, Delete(1, LOST), false);
    run := run + [Delete(1, LOST)];
    Extends(run, Remove(3, true), false);
    run := run + [Remove(3, true)];
    Extends(run, Check(3), false);
    run := run + [Check(3)];
    Extends(run, Save(3), false);
    run := run + [Save(3)];
  }
}
