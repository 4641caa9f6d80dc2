/** The order of an inbox listing (store/inbox.go): creation time, then identity, where two context
    notes compare by their sequence numbers and everything else by its bytes. */
module InboxOrder {
  import opened Records

  datatype Queued = Queued(createdAt: Time, id: string)

  const CONTEXT := "context-"

  const LIMIT: nat := 0x1_0000_0000_0000_0000

  /** Byte order. */
  predicate Before(a: string, b: string) {
    if b == [] then false
    else if a == [] then true
    else if a[0] != b[0] then a[0] < b[0]
    else Before(a[1..], b[1..])
  }

  function Digits(t: string): Option<nat> {
    if t == [] then Some(0)
    else
      var d := t[|t| - 1];
      match Digits(t[..|t| - 1])
      case None => None
      case Some(n) => if '0' <= d <= '9' then Some(10 * n + (d - '0') as nat) else None
  }

  /** An unsigned 64-bit decimal. */
  function ParseUint(t: string): Option<nat> {
    if t == [] || Digits(t).None? || Digits(t).value >= LIMIT then None else Digits(t)
  }

  predicate IsContext(id: string) {
    CONTEXT <= id
  }

  function Sequence(id: string): Option<nat>
    requires IsContext(id)
  {
    ParseUint(id[|CONTEXT|..])
  }

  predicate IDBefore(l: string, r: string) {
    if !IsContext(l) || !IsContext(r) then Before(l, r)
    else
      var x, y := Sequence(l), Sequence(r);
      if x.Some? != y.Some? then x.Some?
      else if x.Some? && x.value != y.value then x.value < y.value
      else Before(l, r)
  }

  predicate Less(a: Queued, b: Queued) {
    if a.createdAt == b.createdAt then IDBefore(a.id, b.id) else a.createdAt < b.createdAt
  }

  lemma {:induction false} BeforeIsTotal(a: string, b: string)
    ensures !(Before(a, b) && Before(b, a)) && !Before(a, a)
    ensures a != b ==> Before(a, b) || Before(b, a)
  {
    if a != [] {
      BeforeIsTotal(a[1..], if b != [] then b[1..] else []);
      if b != [] && a[0] == b[0] && a[1..] == b[1..] {
        assert a == [a[0]] + a[1..] == b;
      }
    }
  }

  lemma {:induction false} BeforeChains(a: string, b: string, c: string)
    requires Before(a, b) && Before(b, c)
    ensures Before(a, c)
  {
    if a != [] && a[0] == b[0] == c[0] {
      BeforeChains(a[1..], b[1..], c[1..]);
    }
  }

  /** Texts that share a prefix stand together: all before or all after a text without it. */
  lemma {:induction false} PrefixStandsTogether(p: string, a: string, b: string, c: string)
    requires p <= a && p <= b && !(p <= c)
    ensures Before(a, c) == Before(b, c) && Before(c, a) == Before(c, b)
    decreases |p|
  {
    if c != [] && c[0] == p[0] {
      assert p[1..] <= a[1..] && p[1..] <= b[1..];
      PrefixStandsTogether(p[1..], a[1..], b[1..], c[1..]);
    }
  }

  lemma IDBeforeIsTotal(a: string, b: string)
    ensures !(IDBefore(a, b) && IDBefore(b, a)) && !IDBefore(a, a)
    ensures a != b ==> IDBefore(a, b) || IDBefore(b, a)
  {
    hide Sequence, Before;
    BeforeIsTotal(a, b);
  }

  lemma IDBeforeChains(a: string, b: string, c: string)
    requires IDBefore(a, b) && IDBefore(b, c)
    ensures IDBefore(a, c)
  {
    hide Sequence, Before;
    if Before(a, b) && Before(b, c) {
      BeforeChains(a, b, c);
    }
    if IsContext(a) && IsContext(b) && !IsContext(c) {
      PrefixStandsTogether(CONTEXT, a, b, c);
    } else if IsContext(a) && !IsContext(b) && IsContext(c) {
      PrefixStandsTogether(CONTEXT, a, c, b);
      BeforeIsTotal(b, c);
    } else if !IsContext(a) && IsContext(b) && IsContext(c) {
      PrefixStandsTogether(CONTEXT, b, c, a);
    }
  }

  /** The comparator is a strict total order on envelopes with distinct identities. */
  lemma LessIsStrictTotal(a: Queued, b: Queued, c: Queued)
    ensures !Less(a, a) && !(Less(a, b) && Less(b, a))
    ensures Less(a, b) && Less(b, c) ==> Less(a, c)
    ensures a.id != b.id ==> Less(a, b) || Less(b, a)
  {
    hide IDBefore;
    IDBeforeIsTotal(a.id, b.id);
    if IDBefore(a.id, b.id) && IDBefore(b.id, c.id) {
      IDBeforeChains(a.id, b.id, c.id);
    }
  }

  /** Byte order: a text comes before another that continues it, or has the smaller byte where the two
      part. */
  lemma {:induction false} BeforeMeans(a: string, b: string, k: nat)
    requires k <= |a| && k <= |b| && a[..k] == b[..k]
    ensures k == |a| < |b| ==> Before(a, b)
    ensures k < |a| && k < |b| && a[k] != b[k] ==> (Before(a, b) <==> a[k] < b[k])
  {
    if k > 0 {
      assert a[..k][0] == a[0] && b[..k][0] == b[0];
      assert a[1..][..k - 1] == a[..k][1..] && b[1..][..k - 1] == b[..k][1..];
      BeforeMeans(a[1..], b[1..], k - 1);
    }
  }

  function Decimal(n: nat): (t: string)
    ensures t != [] && forall c <- t :: '0' <= c <= '9'
  {
    var d := '0' + (n % 10) as char;
    if n < 10 then [d] else Decimal(n / 10) + [d]
  }

  lemma {:induction false} DecimalReads(n: nat)
    ensures Digits(Decimal(n)) == Some(n)
  {
    var t, d := Decimal(n), '0' + (n % 10) as char;
    assert (d - '0') as nat == n % 10;
    if n < 10 {
      assert t[..|t| - 1] == [];
    } else {
      DecimalReads(n / 10);
      assert t[..|t| - 1] == Decimal(n / 10);
    }
  }

  /** The comparator on the identities the program makes: an older envelope is first; of two made at
      once, context notes go by their number however many digits it has, a note without a number goes
      last among them, and other identities go by their bytes. */
  lemma LessMeans(a: Queued, b: Queued, m: nat, n: nat)
    requires m < 0x1_0000_0000_0000_0000
    ensures a.createdAt < b.createdAt ==> Less(a, b)
    ensures a.createdAt == b.createdAt && a.id == "context-" + Decimal(m) && b.id == "context-" + Decimal(n) ==>
              (m < n ==> Less(a, b)) && (n < m ==> !Less(a, b))
    ensures a.createdAt == b.createdAt && a.id == "context-" + Decimal(m) && b.id == "context-" ==> Less(a, b)
    ensures a.createdAt == b.createdAt && !("context-" <= a.id && "context-" <= b.id) ==>
              (Less(a, b) <==> Before(a.id, b.id))
  {
    DecimalReads(m);
    DecimalReads(n);
    assert ("context-" + Decimal(m))[8..] == Decimal(m) && ("context-" + Decimal(n))[8..] == Decimal(n);
    assert "context-"[8..] == "";
    hide Digits, Decimal, Before;
  }

  ghost predicate DistinctIDs(s: seq<Queued>) {
    forall i, j | 0 <= i < j < |s| :: s[i].id != s[j].id
  }

  /** What a sort by the comparator guarantees. */
  ghost predicate Sorted(s: seq<Queued>) {
    forall i, j | 0 <= i < j < |s| :: !Less(s[j], s[i])
  }

  /** A listing has one order: however the directory is read, sorting gives the same sequence. */
  lemma {:induction false} ListingIsUnique(a: seq<Queued>, b: seq<Queued>)
    requires multiset(a) == multiset(b) && DistinctIDs(a) && DistinctIDs(b) && Sorted(a) && Sorted(b)
    ensures a == b
  {
    hide Less, Sorted, DistinctIDs;
    if a == [] {
      assert |multiset(b)| == 0;
    } else {
      assert |multiset(a)| == |a| && |multiset(b)| == |b|;
      FirstIsFirst(a, b);
      TailStays(a);
      TailStays(b);
      ListingIsUnique(a[1..], b[1..]);
      assert a == [a[0]] + a[1..] && b == [b[0]] + b[1..];
    }
  }

  lemma TailStays(s: seq<Queued>)
    requires s != [] && DistinctIDs(s) && Sorted(s)
    ensures DistinctIDs(s[1..]) && Sorted(s[1..]) && multiset(s[1..]) == multiset(s) - multiset{s[0]}
  {
    hide Less;
    assert s == [s[0]] + s[1..];
  }

  lemma FirstIsFirst(a: seq<Queued>, b: seq<Queued>)
    requires multiset(a) == multiset(b) && DistinctIDs(a) && Sorted(a) && Sorted(b) && a != [] && b != []
    ensures a[0] == b[0]
  {
    hide Less;
    assert a[0] in multiset(b) && b[0] in multiset(a);
    var i :| 0 <= i < |b| && b[i] == a[0];
    var j :| 0 <= j < |a| && a[j] == b[0];
    if i > 0 && j > 0 {
      LessIsStrictTotal(a[0], a[j], a[0]);
    }
  }
}
