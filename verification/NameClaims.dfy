/** Name claims and the crash-safe rename (store/store.go). A name is a symbolic link to its
    holder's identity: creating one fails when the name is taken, and rivals claim and remove their
    own names at any moment. */
module NameClaims {
  import opened Records

  type Name = string
  type Hitch = nat

  datatype Record = Record(name: Name, renameFrom: Option<Name>, renameTo: Option<Name>)

  /** The claims directory and the saved record of the agent `me`. */
  datatype State = State(names: map<Name, Hitch>, record: Record, me: Hitch)

  predicate HeldBy(s: State, n: Name, id: Hitch) {
    n in s.names && s.names[n] == id
  }

  predicate Claims(s: State, n: Name) {
    HeldBy(s, n, s.me)
  }

  predicate Rivaled(s: State, n: Name) {
    n in s.names && s.names[n] != s.me
  }

  /** The saved name resolves to its own agent, and the agent claims no name but that one and the
      two a rename is between. */
  ghost predicate Inv(s: State) {
    var r := s.record;
    && Claims(s, r.name)
    && (forall n | Claims(s, n) :: n == r.name || r.renameFrom == Some(n) || r.renameTo == Some(n))
    && (r.renameFrom.Some? <==> r.renameTo.Some?)
    && (r.renameTo.Some? ==> r.renameFrom != r.renameTo && (r.renameFrom == Some(r.name) || r.renameTo == Some(r.name)))
  }

  /** Nothing of a rename is left: one claim, the saved name. */
  ghost predicate Settled(s: State) {
    && s.record.renameFrom.None? && s.record.renameTo.None?
    && forall n :: Claims(s, n) <==> n == s.record.name
  }

  /** The record of an agent that had `from`, at any point of its rename to `to`. */
  ghost predicate Between(r: Record, from: Name, to: Name) {
    && (r.name == from || r.name == to)
    && (r.renameTo == None || r.renameTo == Some(to))
    && (r.renameFrom == None || r.renameFrom == Some(from))
  }

  /** The single writes a rename is made of. */
  datatype Act = Begin(to: Name) | Claim | GiveUp | Adopt | Release | Finish

  /** When a rename may make the write: a claim needs a free name, the others only look at the agent's
      own claims. */
  predicate Able(s: State, a: Act) {
    var r := s.record;
    match a
    case Begin(to) => r.renameFrom.None? && r.renameTo.None? && to != r.name
    case Claim => r.renameTo.Some? && r.renameTo.value !in s.names
    case GiveUp => r.renameTo.Some? && !Claims(s, r.renameTo.value)
    case Adopt => r.renameTo.Some? && Claims(s, r.renameTo.value)
    case Release => r.renameFrom.Some? && r.renameFrom.value != r.name && Claims(s, r.renameFrom.value)
    case Finish => r.renameFrom.Some? && r.renameTo == Some(r.name) && !Claims(s, r.renameFrom.value)
  }

  function Acted(s: State, a: Act): State
    requires Able(s, a)
  {
    var r := s.record;
    match a
    case Begin(to) => s.(record := Record(r.name, Some(r.name), Some(to)))
    case Claim => s.(names := s.names[r.renameTo.value := s.me])
    case GiveUp => s.(record := Record(r.name, None, None))
    case Adopt => s.(record := r.(name := r.renameTo.value))
    case Release => s.(names := s.names - {r.renameFrom.value})
    case Finish => s.(record := Record(r.name, None, None))
  }

  /** What one agent's write means to the others. */
  datatype RivalStep = RivalClaim(name: Name, id: Hitch) | RivalRemove(name: Name, id: Hitch)

  function ByRival(s: State, x: RivalStep): State {
    if x.id == s.me then s
    else match x
      case RivalClaim(n, id) => if n in s.names then s else s.(names := s.names[n := id])
      case RivalRemove(n, id) => if HeldBy(s, n, id) then s.(names := s.names - {n}) else s
  }

  function ByRivals(s: State, steps: seq<RivalStep>): State {
    if steps == [] then s else ByRival(ByRivals(s, steps[..|steps| - 1]), steps[|steps| - 1])
  }

  /** What rivals do in each gap between two steps of one process. */
  type Gaps = seq<seq<RivalStep>>

  function Next(gaps: Gaps): seq<RivalStep> {
    if gaps == [] then [] else gaps[0]
  }

  function Later(gaps: Gaps): Gaps {
    if gaps == [] then [] else gaps[1..]
  }

  /** The state as this process next sees it. */
  function Seen(s: State, gaps: Gaps): State {
    ByRivals(s, Next(gaps))
  }

  /** A rename to `to` finds the name taken when it looks it up, or finds it free and then fails to
      claim it. */
  predicate Taken(s: State, gaps: Gaps, to: Name) {
    var t := Seen(s, gaps);
    Rivaled(t, to) || (to !in t.names && to in Seen(t, Later(gaps)).names)
  }

  /** The agent does nothing in any gap. */
  ghost predicate Quiet(gaps: Gaps, id: Hitch) {
    forall steps <- gaps, x <- steps :: x.id != id
  }

  /** Some rival tries to claim the name in a gap. */
  ghost predicate Sought(gaps: Gaps, n: Name) {
    exists steps <- gaps, x <- steps :: x.RivalClaim? && x.name == n
  }

  /** A rival holds the name and keeps it all along. */
  ghost predicate Reserved(s: State, gaps: Gaps, n: Name) {
    exists id :: id != s.me && Quiet(gaps, id) && HeldBy(s, n, id)
  }

  /** A process of this agent that went from `s` to `t`: an agent quiet all along holds what it held,
      a name no rival held and none seeks is held by none, and the gaps left are the last of them. */
  ghost predicate Spares(s: State, gaps: Gaps, t: State, rest: Gaps) {
    && t.me == s.me
    && |rest| <= |gaps| && rest == gaps[|gaps| - |rest|..]
    && (forall id | id != s.me && Quiet(gaps, id) :: forall n :: HeldBy(t, n, id) <==> HeldBy(s, n, id))
    && (forall n | !Rivaled(s, n) && !Sought(gaps, n) :: !Rivaled(t, n))
  }

  lemma SoughtRest(gaps: Gaps, rest: Gaps)
    requires |rest| <= |gaps| && rest == gaps[|gaps| - |rest|..]
    ensures forall id | Quiet(gaps, id) :: Quiet(rest, id)
    ensures forall n | !Sought(gaps, n) :: !Sought(rest, n)
  {
    assert forall steps <- rest :: steps in gaps;
  }

  lemma SparesItself(s: State, gaps: Gaps)
    ensures Spares(s, gaps, s, gaps)
  {
  }

  /** One process after another. */
  lemma SparesThen(s: State, gaps: Gaps, t: State, rest: Gaps, u: State, last: Gaps)
    requires Spares(s, gaps, t, rest) && Spares(t, rest, u, last)
    ensures Spares(s, gaps, u, last)
  {
    SoughtRest(gaps, rest);
    assert last == gaps[|gaps| - |last|..];
    hide Quiet, Sought, Rivaled;
  }

  /** A write of this agent's own takes nothing from the others and gives them nothing. */
  lemma ActSpares(s: State, a: Act, gaps: Gaps)
    requires Able(s, a)
    ensures Spares(s, gaps, Acted(s, a), gaps)
  {
    hide Quiet, Sought;
  }

  lemma ActKeeps(s: State, a: Act)
    requires Inv(s) && Able(s, a)
    ensures Inv(Acted(s, a))
  {
    var t := Acted(s, a);
    forall n | Claims(t, n)
      ensures n == t.record.name || t.record.renameFrom == Some(n) || t.record.renameTo == Some(n)
    {
      assert Claims(s, n) || (a.Claim? && s.record.renameTo == Some(n));
    }
  }

  /** Rivals leave this agent's record and claims alone. */
  lemma {:induction false} RivalsKeep(s: State, steps: seq<RivalStep>)
    ensures var t := ByRivals(s, steps);
            t.me == s.me && t.record == s.record && forall n :: Claims(t, n) <==> Claims(s, n)
  {
    if steps != [] {
      RivalsKeep(s, steps[..|steps| - 1]);
    }
  }

  lemma {:induction false} RivalsSpare(s: State, steps: seq<RivalStep>, id: Hitch)
    requires id != s.me && forall x <- steps :: x.id != id
    ensures forall n :: HeldBy(ByRivals(s, steps), n, id) <==> HeldBy(s, n, id)
  {
    if steps != [] {
      RivalsSpare(s, steps[..|steps| - 1], id);
      RivalsKeep(s, steps[..|steps| - 1]);
    }
  }

  lemma {:induction false} RivalsSeek(s: State, steps: seq<RivalStep>, n: Name)
    requires !Rivaled(s, n) && forall x <- steps :: !(x.RivalClaim? && x.name == n)
    ensures !Rivaled(ByRivals(s, steps), n)
  {
    if steps != [] {
      RivalsSeek(s, steps[..|steps| - 1], n);
    }
  }

  lemma SeenKeeps(s: State, gaps: Gaps)
    ensures var t := Seen(s, gaps);
            && Spares(s, gaps, t, Later(gaps)) && t.record == s.record
            && (forall n :: Claims(t, n) <==> Claims(s, n)) && (Inv(s) ==> Inv(t))
  {
    RivalsKeep(s, Next(gaps));
    var t := Seen(s, gaps);
    forall id | id != s.me && Quiet(gaps, id) ensures forall n :: HeldBy(t, n, id) <==> HeldBy(s, n, id) {
      RivalsSpare(s, Next(gaps), id);
    }
    forall n | !Rivaled(s, n) && !Sought(gaps, n) ensures !Rivaled(t, n) {
      RivalsSeek(s, Next(gaps), n);
    }
  }

  /** Rivals do not look at this agent's record. */
  lemma {:induction false} RivalsIgnoreRecord(s: State, steps: seq<RivalStep>, r: Record)
    ensures ByRivals(s.(record := r), steps) == ByRivals(s, steps).(record := r)
  {
    if steps != [] {
      RivalsIgnoreRecord(s, steps[..|steps| - 1], r);
    }
  }

  lemma TakenIgnoresRecord(s: State, gaps: Gaps, to: Name, r: Record)
    ensures Taken(s.(record := r), gaps, to) == Taken(s, gaps, to)
  {
    RivalsIgnoreRecord(s, Next(gaps), r);
    RivalsIgnoreRecord(Seen(s, gaps), Next(Later(gaps)), r);
  }

  /** An agent that holds the name, or a quiet rival that holds it, settles whether it is taken; and
      a taken name was held by a rival or sought by one. */
  lemma TakenMeans(s: State, gaps: Gaps, to: Name)
    ensures Claims(s, to) ==> !Taken(s, gaps, to)
    ensures Reserved(s, gaps, to) ==> Taken(s, gaps, to)
    ensures Taken(s, gaps, to) ==> Rivaled(s, to) || Sought(gaps, to)
  {
    var t, u := Seen(s, gaps), Seen(Seen(s, gaps), Later(gaps));
    SeenKeeps(s, gaps);
    SeenKeeps(t, Later(gaps));
    SoughtRest(gaps, Later(gaps));
    if !Rivaled(s, to) && !Sought(gaps, to) {
      assert !Rivaled(t, to) && !Rivaled(u, to);
      assert Claims(u, to) <==> Claims(t, to);
    }
  }

  function Fewer(left: Option<nat>): Option<nat> {
    if left.Some? && left.value > 0 then Some(left.value - 1) else left
  }

  /** What a process that went from `s` to `t` leaves of the reasons for a taken name. */
  lemma TakenLater(s: State, gaps: Gaps, t: State, rest: Gaps, to: Name)
    requires Spares(s, gaps, t, rest)
    ensures Claims(t, to) ==> !Taken(t, rest, to)
    ensures Reserved(s, gaps, to) ==> Taken(t, rest, to)
    ensures Taken(t, rest, to) ==> Rivaled(s, to) || Sought(gaps, to)
  {
    hide Taken;
    SoughtRest(gaps, rest);
    TakenMeans(t, rest, to);
    if id :| id != s.me && Quiet(gaps, id) && HeldBy(s, to, id) {
      assert Quiet(rest, id) && HeldBy(t, to, id);
    }
  }

  /** With no rivals about, a name is reserved exactly when another agent holds it. */
  lemma UndisturbedMeans(s: State, gaps: Gaps, n: Name)
    ensures gaps == [] ==> (Reserved(s, gaps, n) <==> Rivaled(s, n)) && !Sought(gaps, n)
  {
    if gaps == [] && Rivaled(s, n) {
      assert Quiet(gaps, s.names[n]) && HeldBy(s, n, s.names[n]);
    }
  }

  lemma TakenUndisturbed(s: State, to: Name)
    ensures Taken(Seen(s, []), Later([]), to) <==> to in s.names && s.names[to] != s.me
  {
  }

  /** With no rivals about, an agent whose claims are settled before and after has moved its one claim
      and nothing else. */
  lemma RenamedUndisturbed(s: State, t: State, rest: Gaps, name: Name)
    requires Settled(s) && Settled(t) && Spares(s, [], t, rest) && t.record.name == name && !Rivaled(s, name)
    ensures t.names == (s.names - {s.record.name})[name := s.me]
  {
    var renamed := (s.names - {s.record.name})[name := s.me];
    assert Claims(t, name) && Claims(s, s.record.name);
    forall n ensures n in t.names <==> n in renamed
      ensures n in t.names ==> t.names[n] == renamed[n]
    {
      if n in t.names && t.names[n] != s.me {
        assert Quiet([], t.names[n]) && HeldBy(t, n, t.names[n]);
        assert HeldBy(s, n, t.names[n]);
      }
      if n in s.names && s.names[n] != s.me {
        assert Quiet([], s.names[n]) && HeldBy(s, n, s.names[n]);
        assert HeldBy(t, n, s.names[n]);
      }
      assert Claims(t, n) <==> n == name;
      assert Claims(s, n) <==> n == s.record.name;
    }
  }

  class Store {
    var s: State
    var gaps: Gaps
    /** Durable steps left before this process dies; `None` when it lives on. */
    var left: Option<nat>

    ghost predicate Valid()
      reads this
    {
      Inv(s)
    }

    constructor (s: State, gaps: Gaps, left: Option<nat>)
      requires Inv(s)
      ensures Valid() && this.s == s && this.gaps == gaps && this.left == left
    {
      this.s, this.gaps, this.left := s, gaps, left;
    }

    /** One gap passes. */
    method Interfere()
      modifies this`s, this`gaps
      ensures s == Seen(old(s), old(gaps)) && gaps == Later(old(gaps))
    {
      if gaps == [] {
        return;
      }
      var steps := gaps[0];
      gaps := gaps[1..];
      for i := 0 to |steps|
        invariant s == ByRivals(old(s), steps[..i]) && gaps == Later(old(gaps))
      {
        assert steps[..i + 1][..i] == steps[..i];
        s := ByRival(s, steps[i]);
      }
      assert steps[..|steps|] == steps;
    }

    method Alive() returns (ok: bool)
      modifies this`left
      ensures ok <==> old(left) != Some(0)
      ensures left == Fewer(old(left))
    {
      ok := left != Some(0);
      if left.Some? && ok {
        left := Some(left.value - 1);
      }
    }

    method ResolveName(n: Name) returns (holder: Option<Hitch>)
      modifies this`s, this`gaps
      ensures s == Seen(old(s), old(gaps)) && gaps == Later(old(gaps))
      ensures holder == if n in s.names then Some(s.names[n]) else None
    {
      Interfere();
      holder := if n in s.names then Some(s.names[n]) else None;
    }

    /** Creating the link fails exactly when the name is held by then, and no holder loses it. */
    method ClaimName(n: Name) returns (ok: bool, taken: bool)
      requires Valid() && s.record.renameTo == Some(n)
      modifies this`s, this`left, this`gaps
      ensures Valid() && Spares(old(s), old(gaps), s, gaps)
      ensures gaps == Later(old(gaps)) && left == Fewer(old(left))
      ensures taken <==> n in Seen(old(s), old(gaps)).names
      ensures ok <==> old(left) != Some(0)
      ensures var t := Seen(old(s), old(gaps));
              t.record == old(s).record && s == if ok && !taken then Acted(t, Claim) else t
    {
      SeenKeeps(s, gaps);
      Interfere();
      taken := n in s.names;
      ok := Alive();
      if ok && !taken {
        ActKeeps(s, Claim);
        ActSpares(s, Claim, gaps);
        SparesThen(old(s), old(gaps), s, gaps, Acted(s, Claim), gaps);
        s := s.(names := s.names[n := s.me]);
      }
    }

    /** A write that only this agent's own record and claims bear on. */
    method Write(a: Act) returns (ok: bool)
      requires Valid() && Able(s, a) && !a.Claim?
      modifies this`s, this`left, this`gaps
      ensures Valid() && Spares(old(s), old(gaps), s, gaps)
      ensures gaps == Later(old(gaps)) && left == Fewer(old(left))
      ensures ok <==> old(left) != Some(0)
      ensures var t := Seen(old(s), old(gaps)); Able(t, a) && s == if ok then Acted(t, a) else t
      ensures s.record == if ok then Acted(old(s), a).record else old(s).record
      ensures forall n | !(a.Release? && old(s).record.renameFrom == Some(n)) :: Claims(s, n) <==> Claims(old(s), n)
    {
      SeenKeeps(s, gaps);
      Interfere();
      ok := Alive();
      if ok {
        ActKeeps(s, a);
        ActSpares(s, a, gaps);
        SparesThen(old(s), old(gaps), s, gaps, Acted(s, a), gaps);
        s := Acted(s, a);
      }
    }

    /** A name is removed exactly when it resolves to this agent, and no other name is. */
    method RemoveName(n: Name) returns (ok: bool)
      requires Valid() && s.record.renameFrom == Some(n) && n != s.record.name
      modifies this`s, this`left, this`gaps
      ensures Valid() && Spares(old(s), old(gaps), s, gaps) && s.record == old(s).record
      ensures var t := Seen(old(s), old(gaps));
              if !Claims(old(s), n) then ok && s == t && left == old(left) && gaps == Later(old(gaps))
              else var u := Seen(t, Later(old(gaps)));
                   && (ok <==> old(left) != Some(0)) && left == Fewer(old(left)) && gaps == Later(Later(old(gaps)))
                   && Able(u, Release) && s == if ok then Acted(u, Release) else u
      ensures forall k | k != n :: Claims(s, k) <==> Claims(old(s), k)
      ensures ok ==> !Claims(s, n)
    {
      hide Spares, Seen;
      SeenKeeps(s, gaps);
      var holder := ResolveName(n);
      if holder != Some(s.me) {
        return true;
      }
      ghost var t, rest := s, gaps;
      SeenKeeps(s, gaps);
      ok := Write(Release);
      SparesThen(old(s), old(gaps), t, rest, s, gaps);
    }

    /** Looks the name up and claims it when it is free. */
    method TakeName(to: Name) returns (ok: bool, taken: bool)
      requires Valid() && s.record.renameTo == Some(to)
      modifies this`s, this`left, this`gaps
      ensures Valid() && Spares(old(s), old(gaps), s, gaps) && s.record == old(s).record
      ensures ok ==> (taken <==> Taken(old(s), old(gaps), to)) && (Claims(s, to) <==> !taken)
      ensures old(left).None? ==> ok && left.None?
    {
      hide Spares, Seen;
      SeenKeeps(s, gaps);
      var holder := ResolveName(to);
      ok, taken := true, holder.Some? && holder != Some(s.me);
      if holder.None? {
        ghost var t, rest := s, gaps;
        SeenKeeps(s, gaps);
        ok, taken := ClaimName(to);
        SparesThen(old(s), old(gaps), t, rest, s, gaps);
      }
    }

    /** What follows once the name is this agent's: the record adopts it, the old name is released,
        and the rename is over. */
    method TurnOver() returns (ok: bool)
      requires Valid() && s.record.renameTo.Some? && Claims(s, s.record.renameTo.value)
      modifies this`s, this`left, this`gaps
      ensures Valid() && Spares(old(s), old(gaps), s, gaps)
      ensures ok ==> s.record == Record(old(s).record.renameTo.value, None, None)
      ensures !ok ==> s.record == old(s).record || s.record == old(s).record.(name := old(s).record.renameTo.value)
      ensures old(left).None? ==> ok && left.None?
    {
      hide Spares, Seen;
      ok := Write(Adopt);
      if !ok { return; }
      ghost var t, rest := s, gaps;
      ok := RemoveName(s.record.renameFrom.value);
      SparesThen(old(s), old(gaps), t, rest, s, gaps);
      if !ok { return; }
      t, rest := s, gaps;
      ok := Write(Finish);
      SparesThen(old(s), old(gaps), t, rest, s, gaps);
    }

    /** Finishes the rename the record asks for, from wherever a predecessor stopped. At every crash
        point the saved name resolves to this agent. Lived through, it ends with one claim: the new
        name, or the name the agent had exactly when the new one was taken. */
    method FinishRename() returns (ok: bool, taken: bool)
      requires Valid()
      modifies this`s, this`left, this`gaps
      ensures Valid() && Spares(old(s), old(gaps), s, gaps)
      ensures ok ==> Settled(s)
      ensures forall from, to :: Between(old(s).record, from, to) ==> Between(s.record, from, to)
      ensures old(s).record.renameTo.None? ==> ok && !taken && s == old(s)
      ensures old(s).record.renameTo.Some? ==>
        var to := old(s).record.renameTo.value;
        if ok then
          && (taken <==> Taken(old(s), old(gaps), to))
          && s.record.name == if taken then old(s).record.name else to
        else
          s.record.renameTo == Some(to) && (s.record.name == old(s).record.name || s.record.name == to)
      ensures old(left).None? ==> ok && left.None?
    {
      hide Spares, Seen, Taken;
      if s.record.renameTo.None? {
        SparesItself(s, gaps);
        return true, false;
      }
      ok, taken := TakeName(s.record.renameTo.value);
      if !ok { return; }
      ghost var t, rest := s, gaps;
      if taken {
        ok := Write(GiveUp);
      } else {
        ok := TurnOver();
      }
      SparesThen(old(s), old(gaps), t, rest, s, gaps);
    }

    /** The rename command: nothing to do for the name the agent has; otherwise the intent is saved
        before any claim changes. */
    method Rename(to: Name) returns (ok: bool, taken: bool)
      requires Valid() && Settled(s)
      modifies this`s, this`left, this`gaps
      ensures Valid() && Spares(old(s), old(gaps), s, gaps)
      ensures ok ==> Settled(s) && s.record.name == if taken then old(s).record.name else to
      ensures ok ==> (taken <==> to != old(s).record.name && Taken(Seen(old(s), old(gaps)), Later(old(gaps)), to))
      ensures Between(s.record, old(s).record.name, to)
      ensures ok ==> to == old(s).record.name || old(left) != Some(0)
      ensures !ok ==> if old(left) == Some(0) then s.record == old(s).record else s.record.renameTo == Some(to)
      ensures to == old(s).record.name ==> ok && s == old(s)
      ensures old(left).None? ==> ok && left.None?
      ensures old(gaps) == [] && ok && to != old(s).record.name ==>
        && (taken <==> to in old(s).names)
        && s.names == if taken then old(s).names else (old(s).names - {old(s).record.name})[to := s.me]
    {
      hide Spares, Seen, Taken;
      if s.record.name == to {
        SparesItself(s, gaps);
        return true, false;
      }
      ghost var r := Record(s.record.name, Some(s.record.name), Some(to));
      ok := Write(Begin(to));
      taken := false;
      if !ok { return; }
      ghost var t, rest := s, gaps;
      TakenIgnoresRecord(Seen(old(s), old(gaps)), gaps, to, r);
      ok, taken := FinishRename();
      SparesThen(old(s), old(gaps), t, rest, s, gaps);
      if old(gaps) == [] && ok {
        TakenUndisturbed(old(s), to);
        RenamedUndisturbed(old(s), s, gaps, if taken then old(s).record.name else to);
      }
    }
  }

  /** Over any number of owners that each die after an arbitrary number of steps, and one last that
      does not, a rename that was begun ends with exactly one claim: the old name if an owner found the
      new one taken and lived to give it up, and the new name otherwise. A quiet rival that held the
      new name from the start has it taken, and it is never taken unless a rival held it then or
      sought it since. */
  method RenameUntilDone(o: Store, to: Name, lives: seq<nat>) returns (begun: bool, taken: bool)
    requires o.Valid() && Settled(o.s)
    modifies o
    ensures o.Valid() && Settled(o.s) && Spares(old(o.s), old(o.gaps), o.s, o.gaps)
    ensures begun <==> lives == [] || lives[0] > 0 || to == old(o.s).record.name
    ensures o.s.record.name == if begun && !taken then to else old(o.s).record.name
    ensures taken ==> begun && to != old(o.s).record.name && (Rivaled(old(o.s), to) || Sought(old(o.gaps), to))
    ensures begun && Reserved(old(o.s), old(o.gaps), to) ==> taken
    ensures begun && old(o.gaps) == [] ==> (taken <==> Rivaled(old(o.s), to))
  {
    hide Spares, Seen, Taken, Rivaled, Reserved, Sought;
    ghost var s0, gaps0, from := o.s, o.gaps, o.s.record.name;
    o.left := if lives == [] then None else Some(lives[0]);
    SeenKeeps(s0, gaps0);
    TakenLater(s0, gaps0, Seen(s0, gaps0), Later(gaps0), to);
    var ok;
    ok, taken := o.Rename(to);
    taken := ok && taken;
    begun := ok || o.s.record.renameTo.Some?;
    for i := 1 to |lives| + 1
      invariant o.Valid() && Spares(s0, gaps0, o.s, o.gaps) && Between(o.s.record, from, to)
      invariant begun <==> lives == [] || lives[0] > 0 || to == from
      invariant !begun ==> o.s.record == Record(from, None, None)
      invariant taken ==> begun && o.s.record.renameTo.None? && to != from && (Rivaled(s0, to) || Sought(gaps0, to))
      invariant begun && to != from && Reserved(s0, gaps0, to) && o.s.record.renameTo.None? ==> taken
      invariant o.s.record.renameTo.None? ==> o.s.record.name == if begun && !taken then to else from
      invariant lives == [] || i == |lives| + 1 ==> o.s.record.renameTo.None?
    {
      o.left := if i < |lives| then Some(lives[i]) else None;
      var found;
      ghost var t, rest := o.s, o.gaps;
      ok, found := o.FinishRename();
      taken := taken || (ok && found);
      SparesThen(s0, gaps0, t, rest, o.s, o.gaps);
      TakenLater(s0, gaps0, t, rest, to);
    }
    UndisturbedMeans(s0, gaps0, to);
  }

  /** Every agent of a team, each with its own saved record, over one claims directory. */
  datatype Team = Team(names: map<Name, Hitch>, records: map<Hitch, Record>)

  /** One agent makes one write of a rename of its own. */
  datatype Turn = Turn(id: Hitch, act: Act)

  function View(t: Team, id: Hitch): State
    requires id in t.records
  {
    State(t.names, t.records[id], id)
  }

  ghost predicate TeamInv(t: Team) {
    forall id <- t.records :: Inv(View(t, id))
  }

  predicate MayTurn(t: Team, x: Turn) {
    x.id in t.records && Able(View(t, x.id), x.act)
  }

  /** Turns out of place do nothing; an owner that dies takes no more turns, and the next goes on from
      the record. */
  function Turned(t: Team, x: Turn): Team {
    if !MayTurn(t, x) then t
    else
      var s := Acted(View(t, x.id), x.act);
      Team(s.names, t.records[x.id := s.record])
  }

  function After(t: Team, turns: seq<Turn>): Team {
    if turns == [] then t else Turned(After(t, turns[..|turns| - 1]), turns[|turns| - 1])
  }

  /** What a turn does in the claims directory, as the rivals of the agent that made it see it. */
  function Felt(t: Team, x: Turn): seq<RivalStep>
    requires MayTurn(t, x)
  {
    match x.act
    case Claim => [RivalClaim(t.records[x.id].renameTo.value, x.id)]
    case Release => [RivalRemove(t.records[x.id].renameFrom.value, x.id)]
    case _ => []
  }

  /** Any agent's turn is for every other agent one of the steps of a rival. */
  lemma TurnIsRival(t: Team, x: Turn, id: Hitch)
    requires MayTurn(t, x) && id in t.records && id != x.id
    ensures View(Turned(t, x), id) == ByRivals(View(t, id), Felt(t, x))
  {
    var s := View(t, id);
    if Felt(t, x) != [] {
      var y := Felt(t, x)[0];
      assert Felt(t, x)[..0] == [] && ByRivals(s, []) == s;
      assert ByRivals(s, Felt(t, x)) == ByRival(s, y);
    }
  }

  lemma TurnKeeps(t: Team, x: Turn)
    requires TeamInv(t)
    ensures TeamInv(Turned(t, x)) && Turned(t, x).records.Keys == t.records.Keys
  {
    if MayTurn(t, x) {
      ActKeeps(View(t, x.id), x.act);
      forall id <- t.records | id != x.id ensures Inv(View(Turned(t, x), id)) {
        TurnIsRival(t, x, id);
        RivalsKeep(View(t, id), Felt(t, x));
      }
    }
  }

  /** The agents a listing shows: those whose saved name resolves to them. */
  function Listed(t: Team): set<Hitch> {
    set id | id in t.records && Claims(View(t, id), t.records[id].name)
  }

  /** From any team whose claims are in order, whatever turns its agents take and wherever their
      owners stop, the listing shows each agent, and no name twice. */
  lemma {:induction false} EachListedOnce(t: Team, turns: seq<Turn>)
    requires TeamInv(t)
    ensures var u := After(t, turns);
            && TeamInv(u) && Listed(u) == t.records.Keys == u.records.Keys
            && forall i, j | i in u.records && j in u.records && i != j :: u.records[i].name != u.records[j].name
  {
    var u := After(t, turns);
    if turns != [] {
      EachListedOnce(t, turns[..|turns| - 1]);
      TurnKeeps(After(t, turns[..|turns| - 1]), turns[|turns| - 1]);
    }
    forall id <- u.records ensures Claims(View(u, id), u.records[id].name) {
      assert Inv(View(u, id));
    }
  }
}
