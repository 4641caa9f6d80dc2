/** Binding native sessions in the team log before a saved state is replaced (store/lock.go). */
module SessionBinding {
  import opened Records

  type Session = string

  /** The part of a saved record that names the native session. `bound` is the session last logged. */
  datatype Native = Native(session: Session, transcript: string, bound: Session)

  datatype Binding = Binding(session: Session, previous: Session)

  /** The saved record, the team log's bindings, and every record that was replaced so far. */
  datatype State = State(saved: Native, log: seq<Binding>, replaced: seq<Native>)

  predicate Confirmed(n: Native) {
    n.session != "" && n.transcript != ""
  }

  predicate Unbound(n: Native, bound: Session) {
    Confirmed(n) && n.session != bound
  }

  predicate Logged(log: seq<Binding>, session: Session) {
    exists b <- log :: b.session == session
  }

  /** No confirmed session was replaced before it was logged, and the session a record calls bound
      is in the log. */
  ghost predicate Inv(s: State) {
    && (s.saved.bound != "" ==> Logged(s.log, s.saved.bound))
    && forall n <- s.replaced :: Confirmed(n) ==> Logged(s.log, n.session)
  }

  type Durable = s: State | Inv(s) ghost witness State(Native("", "", ""), [], [])

  /** How an append went: it may fail without a trace, or fail after the line was written. */
  datatype Append = Appended | AppendedThenFailed | NotAppended

  /** The faults one save meets: binding the saved session, binding the new one, writing the state. */
  datatype Faults = Faults(savedAppend: Append, newAppend: Append, written: bool)

  const NO_FAULTS := Faults(Appended, Appended, true)

  lemma LogGrows(s: State, b: Binding)
    requires Inv(s)
    ensures Inv(s.(log := s.log + [b])) && Logged(s.log + [b], b.session)
    ensures forall x :: Logged(s.log, x) ==> Logged(s.log + [b], x)
  {
    var log := s.log + [b];
    assert log[|s.log|] == b;
    forall x | Logged(s.log, x) ensures Logged(log, x) {
      var y :| y in s.log && y.session == x;
      assert y in log;
    }
  }

  /** The bindings a save without faults appends: the saved session if the log misses it, then the
      new one if it is confirmed and neither of the two. */
  function Appends(saved: Native, bound: Option<Session>, n: Native): seq<Binding> {
    var first := if bound.None? && Unbound(saved, saved.bound) then [Binding(saved.session, saved.bound)] else [];
    var known := if bound.Some? then bound.value else if first != [] then saved.session else saved.bound;
    first + (if Unbound(n, known) then [Binding(n.session, known)] else [])
  }

  class LockedAgent {
    var s: Durable
    /** The saved record's bound session, once this holder of the lock has read it. */
    var bound: Option<Session>

    /** What this holder read is in the log, and so is the session it would replace. */
    ghost predicate Valid()
      reads this
    {
      bound.Some? ==>
        && (bound.value != "" ==> Logged(s.log, bound.value))
        && (Confirmed(s.saved) ==> Logged(s.log, s.saved.session))
    }

    /** A new holder of the lock has read nothing yet. */
    constructor (s: Durable)
      ensures Valid() && this.s == s && bound.None?
    {
      this.s, bound := s, None;
    }

    method Bind(b: Binding, how: Append) returns (ok: bool)
      requires Valid()
      modifies this`s
      ensures Valid() && s.saved == old(s).saved && s.replaced == old(s).replaced
      ensures s.log == if how.NotAppended? then old(s).log else old(s).log + [b]
      ensures ok <==> how.Appended?
      ensures ok ==> Logged(s.log, b.session)
      ensures forall x :: Logged(old(s).log, x) ==> Logged(s.log, x)
    {
      if how.NotAppended? {
        return false;
      }
      LogGrows(s, b);
      s := s.(log := s.log + [b]);
      ok := how.Appended?;
    }

    /** A holder's first save reads the saved record and binds its session if the log misses it. */
    method ReadBound(how: Append) returns (ok: bool)
      requires Valid()
      modifies this
      ensures Valid() && old(s).log <= s.log && s.saved == old(s).saved && s.replaced == old(s).replaced
      ensures ok <==> bound.Some?
      ensures old(bound).Some? ==> ok && bound == old(bound) && s == old(s)
      ensures ok && old(bound).None? && Unbound(s.saved, s.saved.bound) ==>
        bound == Some(s.saved.session) && s.log == old(s).log + [Binding(s.saved.session, s.saved.bound)]
      ensures ok && old(bound).None? && !Unbound(s.saved, s.saved.bound) ==> bound == Some(s.saved.bound) && s == old(s)
      ensures how.Appended? ==> ok
    {
      ok := true;
      if bound.None? {
        SavedIsLogged(s);
        hide Inv, Logged;
        var known := s.saved.bound;
        if Unbound(s.saved, known) {
          ok := Bind(Binding(s.saved.session, known), how);
          if !ok { return; }
          known := s.saved.session;
        }
        bound := Some(known);
      }
    }

    /** Saves `n` after binding what replacing the saved record would lose. A fault leaves the saved
        record as it was; a later save binds again, so the log may repeat a session but misses none. */
    method Save(n: Native, faults: Faults) returns (ok: bool)
      requires Valid()
      modifies this
      ensures Valid() && old(s).log <= s.log
      ensures ok ==> s.replaced == old(s).replaced + [old(s).saved]
      ensures ok ==> s.saved.session == n.session && s.saved.transcript == n.transcript
      ensures ok && Confirmed(n) ==> s.saved.bound == n.session && Logged(s.log, n.session)
      ensures !ok ==> s.saved == old(s).saved && s.replaced == old(s).replaced
      ensures ok ==> s.log == old(s).log + Appends(old(s).saved, old(bound), n) && bound == Some(s.saved.bound)
      ensures ok && n.session != "" && n.transcript != "" ==> s.saved.bound == n.session
      ensures ok && (n.session == "" || n.transcript == "") && old(bound).Some? ==>
        s.saved.bound == old(bound).value && s.log == old(s).log
      ensures ok && (n.session == "" || n.transcript == "") && old(bound).None? ==>
        var was := old(s).saved;
        if was.session != "" && was.transcript != "" && was.session != was.bound
        then s.saved.bound == was.session && s.log == old(s).log + [Binding(was.session, was.bound)]
        else s.saved.bound == was.bound && s.log == old(s).log
      ensures faults == NO_FAULTS ==> ok
    {
      hide Inv, Logged;
      ok := ReadBound(faults.savedAppend);
      if !ok { return; }
      var next := n.(bound := bound.value);
      if Unbound(n, bound.value) {
        ok := Bind(Binding(n.session, bound.value), faults.newAppend);
        if !ok { return; }
        next := next.(bound := n.session);
      }
      if !faults.written {
        return false;
      }
      ReplaceKeeps(s, next);
      s := s.(saved := next, replaced := s.replaced + [s.saved]);
      bound := Some(next.bound);
      ok := true;
    }
  }

  lemma SavedIsLogged(s: State)
    requires Inv(s)
    ensures s.saved.bound != "" ==> Logged(s.log, s.saved.bound)
  {
  }

  lemma ReplaceKeeps(s: State, n: Native)
    requires Inv(s) && (n.bound != "" ==> Logged(s.log, n.bound))
    requires Confirmed(s.saved) ==> Logged(s.log, s.saved.session)
    ensures Inv(s.(saved := n, replaced := s.replaced + [s.saved]))
  {
  }

  /** What happens to the lock: a save by its holder, or a hand-over to a new holder. */
  datatype Event = SaveBy(n: Native, faults: Faults) | HandOver

  /** Over any sequence of saves with any faults and any hand-overs, every confirmed session that
      was ever replaced is in the log. */
  method Run(initial: Durable, events: seq<Event>) returns (s: State)
    ensures forall n <- s.replaced :: n.session != "" && n.transcript != "" ==> exists b <- s.log :: b.session == n.session
    ensures initial.log <= s.log
  {
    var l := new LockedAgent(initial);
    for i := 0 to |events|
      invariant fresh(l) && l.Valid() && initial.log <= l.s.log
    {
      match events[i]
      case HandOver => l := new LockedAgent(l.s);
      case SaveBy(n, faults) => var ok := l.Save(n, faults);
    }
    s := l.s;
  }

  /** Once a save succeeded, saving the same session again logs nothing, by the same holder or by
      the next one. */
  lemma ResaveIsQuiet(saved: Native, n: Native, again: Native, held: bool)
    requires saved == n.(bound := saved.bound) && (Confirmed(n) ==> saved.bound == n.session)
    requires again.session == n.session && (Confirmed(n) || !Confirmed(again))
    ensures Appends(saved, if held then Some(saved.bound) else None, again) == []
  {
  }

  /** A changed session is logged exactly once, naming the one it follows. */
  lemma ChangeIsLoggedOnce(saved: Native, again: Native, held: bool)
    requires Confirmed(saved) ==> saved.bound == saved.session
    requires Confirmed(again) && again.session != saved.bound
    ensures Appends(saved, if held then Some(saved.bound) else None, again) == [Binding(again.session, saved.bound)]
  {
  }
}
