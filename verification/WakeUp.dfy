/** No lost wake-up: publishers, drain owners, short lock holders and detached ticks interleave
    freely around one agent's lock. A publisher that finds the lock taken leaves its message to the
    owner, which lists the queue again after it unlocked. */
module WakeUp {

  type Pid = nat
  type Mail = nat

  datatype Holder = Free | Held(pid: Pid)

  /** Where a process stands. Only `Draining`, `Drained` and `Holding` own the lock. */
  datatype Pc =
    | Linking(mail: Mail)
    | TryingDrain
    | Draining
    | Drained(waiting: set<Mail>)
    | Rechecking(waiting: set<Mail>)
    | TryingShort
    | Holding
    | Releasing
    | Done

  /** `queue` is the inbox's `new`; `published` and `listed` record which mail was ever linked, and
      which was in a listing a drain made after that. */
  datatype State = State(
    queue: set<Mail>, published: set<Mail>, listed: set<Mail>, lock: Holder, procs: map<Pid, Pc>)

  const INITIAL := State({}, {}, {}, Free, map[])

  datatype Action =
    | Start(pid: Pid, pc: Pc)
    | Link(pid: Pid)
    | LinkHeld(pid: Pid, mail: Mail)
    | TryLock(pid: Pid)
    | Deliver(pid: Pid, mail: Mail)
    | List(pid: Pid)
    | Unlock(pid: Pid)
    | Recheck(pid: Pid)
    | CheckRelease(pid: Pid, tick: Pid)

  predicate Owns(pc: Pc) {
    pc.Draining? || pc.Drained? || pc.Holding?
  }

  /** The process will still look at the queue, or owns the lock and so answers for those that
      could not take it. */
  predicate Watching(pc: Pc) {
    !(pc.Linking? || pc.TryingShort? || pc.Done?)
  }

  predicate Runs(s: State, pid: Pid, pc: Pc) {
    pid in s.procs && s.procs[pid] == pc
  }

  predicate Enabled(s: State, a: Action) {
    match a
    case Start(pid, pc) => pid !in s.procs && (pc.Linking? || pc.TryingDrain? || pc.TryingShort?)
    case Link(pid) => pid in s.procs && s.procs[pid].Linking? && s.procs[pid].mail !in s.published
    case LinkHeld(pid, mail) => Runs(s, pid, Holding) && mail !in s.published
    case TryLock(pid) => pid in s.procs && (s.procs[pid].TryingDrain? || s.procs[pid].TryingShort?)
    case Deliver(pid, mail) => Runs(s, pid, Draining) && mail in s.queue
    case List(pid) => Runs(s, pid, Draining)
    case Unlock(pid) => pid in s.procs && (s.procs[pid].Drained? || s.procs[pid].Holding?)
    case Recheck(pid) => pid in s.procs && s.procs[pid].Rechecking?
    case CheckRelease(pid, tick) => Runs(s, pid, Releasing) && tick !in s.procs
  }

  /** One atomic step. `due` is the mail whose time had come when it was published. */
  function Step(s: State, a: Action, due: Mail -> bool): State
    requires Enabled(s, a)
  {
    match a
    case Start(pid, pc) => s.(procs := s.procs[pid := pc])
    case Link(pid) =>
      var mail := s.procs[pid].mail;
      s.(queue := s.queue + {mail}, published := s.published + {mail}, procs := s.procs[pid := TryingDrain])
    case LinkHeld(pid, mail) =>
      s.(queue := s.queue + {mail}, published := s.published + {mail}, procs := s.procs[pid := Draining])
    case TryLock(pid) =>
      if s.lock.Held? then s.(procs := s.procs[pid := Done])
      else s.(lock := Held(pid), procs := s.procs[pid := if s.procs[pid].TryingDrain? then Draining else Holding])
    case Deliver(pid, mail) => s.(queue := s.queue - {mail})
    case List(pid) => s.(listed := s.listed + s.queue, procs := s.procs[pid := Drained(s.queue)])
    case Unlock(pid) =>
      s.(lock := Free,
         procs := s.procs[pid := if s.procs[pid].Drained? then Rechecking(s.procs[pid].waiting) else Releasing])
    case Recheck(pid) =>
      var arrived := exists m <- s.queue :: m !in s.procs[pid].waiting && due(m);
      s.(procs := s.procs[pid := if arrived then TryingDrain else Done])
    case CheckRelease(pid, tick) =>
      var pending := exists m <- s.queue :: due(m);
      if pending then s.(procs := s.procs[pid := Done][tick := TryingDrain])
      else s.(procs := s.procs[pid := Done])
  }

  ghost predicate Unseen(s: State, m: Mail, due: Mail -> bool) {
    m in s.queue && due(m) && m !in s.listed
  }

  /** The lock has one owner; listings a process carries are real; and due mail no drain has listed
      yet is some process's to find. */
  ghost predicate Inv(s: State, due: Mail -> bool) {
    && (forall p <- s.procs :: Owns(s.procs[p]) <==> s.lock == Held(p))
    && (s.lock.Held? ==> s.lock.pid in s.procs)
    && s.queue <= s.published && s.listed <= s.published
    && (forall p <- s.procs :: s.procs[p].Drained? || s.procs[p].Rechecking? ==> s.procs[p].waiting <= s.listed)
    && ((exists m :: Unseen(s, m, due)) ==> exists p <- s.procs :: Watching(s.procs[p]))
  }

  lemma StepKeeps(s: State, a: Action, due: Mail -> bool)
    requires Inv(s, due) && Enabled(s, a)
    ensures Inv(Step(s, a, due), due)
  {
    var n := Step(s, a, due);
    if m :| Unseen(n, m, due) {
      Watched(s, a, due, m);
    }
  }

  /** Whoever stops watching leaves another process watching, or saw that nothing unseen is left. */
  lemma Watched(s: State, a: Action, due: Mail -> bool, m: Mail)
    requires Inv(s, due) && Enabled(s, a) && Unseen(Step(s, a, due), m, due)
    ensures exists p <- Step(s, a, due).procs :: Watching(Step(s, a, due).procs[p])
  {
    var n := Step(s, a, due);
    match a
    case Link(pid) => assert Watching(n.procs[pid]);
    case LinkHeld(pid, _) => assert Watching(n.procs[pid]);
    case TryLock(pid) =>
      var owner := if s.lock.Held? then s.lock.pid else pid;
      assert owner in n.procs && Watching(n.procs[owner]);
    case Deliver(pid, _) => assert Watching(n.procs[pid]);
    case List(pid) =>
    case Unlock(pid) => assert Watching(n.procs[pid]);
    case Recheck(pid) =>
      assert Unseen(s, m, due);
      assert Watching(n.procs[pid]);
    case CheckRelease(pid, tick) =>
      assert Unseen(s, m, due);
      assert Watching(n.procs[tick]);
    case Start(pid, pc) =>
      assert Unseen(s, m, due);
      var p :| p in s.procs && Watching(s.procs[p]);
      assert p in n.procs && Watching(n.procs[p]);
  }

  datatype Outcome = Stuck | At(state: State)

  /** The state a run of actions ends in, if each was enabled in its turn. */
  ghost function After(run: seq<Action>, due: Mail -> bool): Outcome {
    if run == [] then At(INITIAL)
    else
      var before := After(run[..|run| - 1], due);
      if before.Stuck? || !Enabled(before.state, run[|run| - 1]) then Stuck
      else At(Step(before.state, run[|run| - 1], due))
  }

  lemma {:induction false} ReachedKeeps(run: seq<Action>, due: Mail -> bool)
    requires After(run, due).At?
    ensures Inv(After(run, due).state, due)
  {
    if run != [] {
      ReachedKeeps(run[..|run| - 1], due);
      StepKeeps(After(run[..|run| - 1], due).state, run[|run| - 1], due);
    }
  }

  /** In every interleaving: once no process but publishers that have not linked yet is left, every
      due envelope still queued was listed by a drain that ran after it was published. */
  lemma NoLostWakeUp(run: seq<Action>, due: Mail -> bool, m: Mail)
    requires After(run, due).At?
    requires var s := After(run, due).state;
             (forall p <- s.procs :: !Watching(s.procs[p])) && m in s.queue && due(m)
    ensures m in After(run, due).state.listed
  {
    ReachedKeeps(run, due);
    var s := After(run, due).state;
    assert m !in s.listed ==> Unseen(s, m, due);
  }

  /** The state some actions lead to from `s`, if each is enabled in its turn. */
  ghost function Later(s: State, more: seq<Action>, due: Mail -> bool): Outcome
    decreases more
  {
    if more == [] then At(s)
    else if !Enabled(s, more[0]) then Stuck
    else Later(Step(s, more[0], due), more[1..], due)
  }

  /** No publication and no delivery, just the processes there are going on. */
  predicate GoesOn(a: Action) {
    a.TryLock? || a.List? || a.Unlock? || a.Recheck? || a.CheckRelease?
  }

  ghost predicate Finds(s: State, more: seq<Action>, due: Mail -> bool, m: Mail) {
    && (forall a <- more :: GoesOn(a))
    && Later(s, more, due).At? && m in Later(s, more, due).state.listed
  }

  lemma First(s: State, a: Action, rest: seq<Action>, due: Mail -> bool, m: Mail)
    requires Enabled(s, a) && GoesOn(a) && Finds(Step(s, a, due), rest, due, m)
    ensures Finds(s, [a] + rest, due, m)
  {
    assert ([a] + rest)[1..] == rest;
  }

  lemma ByDrain(s: State, p: Pid, due: Mail -> bool, m: Mail) returns (more: seq<Action>)
    requires p in s.procs && m in s.queue
    requires s.procs[p].Draining? || (s.procs[p].TryingDrain? && s.lock.Free?)
    ensures |more| <= 2 && Finds(s, more, due, m)
  {
    if s.procs[p].TryingDrain? {
      First(Step(s, TryLock(p), due), List(p), [], due, m);
      First(s, TryLock(p), [List(p)], due, m);
      more := [TryLock(p)] + [List(p)];
    } else {
      First(s, List(p), [], due, m);
      more := [List(p)];
    }
  }

  lemma {:induction false} NewPid(used: set<Pid>) returns (p: Pid)
    ensures forall q <- used :: q < p
  {
    if used == {} {
      p := 0;
    } else {
      var u :| u in used;
      var before := NewPid(used - {u});
      p := if u < before then before else u + 1;
      forall q <- used ensures q < p {
        assert q == u || q in used - {u};
      }
    }
  }

  /** A process that checks the queue after it unlocked, on its way to a drain. */
  lemma ByCheck(s: State, p: Pid, due: Mail -> bool, m: Mail) returns (more: seq<Action>)
    requires p in s.procs && s.lock.Free? && m in s.queue && due(m)
    requires s.procs[p].Releasing? || (s.procs[p].Rechecking? && m !in s.procs[p].waiting)
    ensures |more| <= 3 && Finds(s, more, due, m)
  {
    if s.procs[p].Rechecking? {
      more := ByDrain(Step(s, Recheck(p), due), p, due, m);
      First(s, Recheck(p), more, due, m);
      more := [Recheck(p)] + more;
    } else {
      var tick := NewPid(s.procs.Keys);
      more := ByDrain(Step(s, CheckRelease(p, tick), due), tick, due, m);
      First(s, CheckRelease(p, tick), more, due, m);
      more := [CheckRelease(p, tick)] + more;
    }
  }

  /** A wake-up is not only owed but at hand: in any reachable state, due mail that no drain has listed
      gets listed within four steps of the processes that are there, with no other publication. */
  lemma FoundInFour(s: State, due: Mail -> bool, m: Mail) returns (more: seq<Action>)
    requires Inv(s, due) && m in s.queue && due(m) && m !in s.listed
    ensures |more| <= 4 && Finds(s, more, due, m)
  {
    assert Unseen(s, m, due);
    var p: Pid :| p in s.procs && (s.lock == Held(p) || (s.lock.Free? && Watching(s.procs[p])));
    if s.procs[p].Drained? || s.procs[p].Holding? {
      more := ByCheck(Step(s, Unlock(p), due), p, due, m);
      First(s, Unlock(p), more, due, m);
      more := [Unlock(p)] + more;
    } else if s.procs[p].Rechecking? || s.procs[p].Releasing? {
      more := ByCheck(s, p, due, m);
    } else {
      more := ByDrain(s, p, due, m);
    }
  }

  /** Nobody is kept busy for nothing: a drain owner that finds no due mail but what it left waiting, or
      a short holder that finds none at all, is done and starts no tick. */
  lemma QuietEnds(s: State, p: Pid, tick: Pid, due: Mail -> bool)
    requires p in s.procs && (s.procs[p].Rechecking? || s.procs[p].Releasing?) && tick !in s.procs
    requires forall m <- s.queue | due(m) :: s.procs[p].Rechecking? && m in s.procs[p].waiting
    ensures var a := if s.procs[p].Rechecking? then Recheck(p) else CheckRelease(p, tick);
            Enabled(s, a) && Step(s, a, due) == s.(procs := s.procs[p := Done])
  {
  }

  /** At most one process owns the lock. */
  lemma OneOwner(run: seq<Action>, due: Mail -> bool, p: Pid, q: Pid)
    requires After(run, due).At?
    requires var s := After(run, due).state; p in s.procs && q in s.procs && Owns(s.procs[p]) && Owns(s.procs[q])
    ensures p == q
  {
    ReachedKeeps(run, due);
  }

  lemma Extends(run: seq<Action>, a: Action, due: Mail -> bool)
    requires After(run, due).At? && Enabled(After(run, due).state, a)
    ensures After(run + [a], due) == At(Step(After(run, due).state, a, due))
  {
    assert (run + [a])[..|run + [a]| - 1] == run;
  }

  /** A holder that only unlocked, without listing the queue again, would lose a wake-up: a publisher
      found the lock taken, and nobody is left to look. */
  lemma UnlockAloneLoses(due: Mail -> bool, m: Mail) returns (run: seq<Action>)
    requires due(m)
    ensures After(run, due).At?
    ensures var s := After(run, due).state;
            Runs(s, 0, Holding) &&
            var gone := s.(lock := Free, procs := s.procs[0 := Done]);
            Unseen(gone, m, due) && forall p <- gone.procs :: !Watching(gone.procs[p])
  {
    run := [];
    Extends(run, Start(0, TryingShort), due);
    run := run + [Start(0, TryingShort)];
    Extends(run, TryLock(0), due);
    run := run + [TryLock(0)];
    Extends(run, Start(1, Linking(m)), due);
    run := run + [Start(1, Linking(m))];
    Extends(run, Link(1), due);
    run := run + [Link(1)];
    Extends(run, TryLock(1), due);
    run := run + [TryLock(1)];
  }
}
