/** Bounded pages over the audit log (cmd/gang/log_metadata.go). Decoding a record, filtering and
    projecting it are one given function of its bytes. */
module LogPaging {
  import opened Records

  type Byte = b: int | 0 <= b < 256

  const NEWLINE: Byte := 10

  type Bytes = seq<Byte>

  datatype Decoded<+P> = UnknownType | Invalid | Hidden(at: Time) | Shown(at: Time, event: P)

  /** One complete record: its offset, the offset after its newline, and what it decodes to. */
  datatype Entry<+P> = Entry(offset: nat, end: nat, what: Decoded<P>)

  datatype Event<+P> = Event(offset: nat, end: nat, event: P)

  datatype GapKind =
    | TailStartsInsideRecord | IncompleteTail | PageEndsInsideRecord | RecordExceedsBudget
    | UnknownEventKind | InvalidRecord | TimeOutOfOrder

  datatype Gap = Gap(offset: nat, kind: GapKind)

  datatype Page<+P> = Page(
    offset: nat, readEnd: nat, next: nat, more: bool, events: seq<Event<P>>, gaps: seq<Gap>, unknown: nat)

  datatype Read<+P> = Ok(page: Page<P>) | OffsetPastEnd | NotABoundary

  /** The first newline of `log[..end]` at or after `i`, or the end. */
  function Newline(log: Bytes, i: nat, end: nat): (n: nat)
    requires i <= end <= |log|
    ensures i <= n <= end && (n < end ==> log[n] == NEWLINE) && forall k | i <= k < n :: log[k] != NEWLINE
    decreases end - i
  {
    if i == end || log[i] == NEWLINE then i else Newline(log, i + 1, end)
  }

  /** The complete records of `log[..end]` from offset `c` on. */
  function Entries<P>(log: Bytes, c: nat, end: nat, decode: Bytes -> Decoded<P>): seq<Entry<P>>
    requires c <= end <= |log|
    decreases end - c
  {
    var n := Newline(log, c, end);
    if n == end then [] else [Entry(c, n + 1, decode(log[c..n]))] + Entries(log, n + 1, end, decode)
  }

  /** Where the last complete record of `log[..end]` from `c` on ends. */
  function Rest(log: Bytes, c: nat, end: nat): (r: nat)
    requires c <= end <= |log|
    ensures c <= r <= end
    decreases end - c
  {
    var n := Newline(log, c, end);
    if n == end then c else Rest(log, n + 1, end)
  }

  predicate Boundary(log: Bytes, c: nat) {
    c <= |log| && (c > 0 ==> log[c - 1] == NEWLINE)
  }

  /** The event a record shows, if it shows one. */
  function Projected<P>(x: Entry<P>): seq<Event<P>> {
    if x.what.Shown? then [Event(x.offset, x.end, x.what.event)] else []
  }

  function Events<P>(entries: seq<Entry<P>>): seq<Event<P>> {
    if entries == [] then []
    else
      var x := entries[|entries| - 1];
      Events(entries[..|entries| - 1]) + Projected(x)
  }

  function Unknowns<P>(entries: seq<Entry<P>>): nat {
    if entries == [] then 0
    else Unknowns(entries[..|entries| - 1]) + if entries[|entries| - 1].what.UnknownType? then 1 else 0
  }

  /** The time of the last decoded record; 0 when there is none. */
  function Prior<P>(entries: seq<Entry<P>>): Time {
    if entries == [] then 0
    else
      var x := entries[|entries| - 1].what;
      if x.Hidden? || x.Shown? then x.at else Prior(entries[..|entries| - 1])
  }

  function Gaps<P>(entries: seq<Entry<P>>): seq<Gap> {
    if entries == [] then []
    else
      var rest, x := entries[..|entries| - 1], entries[|entries| - 1];
      Gaps(rest) + match x.what {
        case UnknownType => [Gap(x.offset, UnknownEventKind)]
        case Invalid => [Gap(x.offset, InvalidRecord)]
        case _ => if Prior(rest) != 0 && x.what.at < Prior(rest) then [Gap(x.offset, TimeOutOfOrder)] else []
      }
  }

  function Min(a: nat, b: nat): nat {
    if a < b then a else b
  }

  /** Why bytes are left at the end of a page over the first `size` bytes. */
  function TailGap(log: Bytes, offset: nat, at: nat, readEnd: nat, size: nat): seq<Gap> {
    if at == readEnd then []
    else [Gap(at, if readEnd == size then IncompleteTail else if at == offset then RecordExceedsBudget else PageEndsInsideRecord)]
  }

  /** The page's first whole record: a summary may start inside one. */
  function PageStart(log: Bytes, offset: nat, readEnd: nat): (c: nat)
    requires offset <= readEnd <= |log|
    ensures offset <= c <= readEnd
  {
    if Boundary(log, offset) then offset
    else
      var n := Newline(log, offset, readEnd);
      if n < readEnd then n + 1 else readEnd
  }

  /** What a page over the first `size` bytes of the log says, record by record. */
  function PageOf<P>(log: Bytes, size: nat, offset: nat, budget: nat, decode: Bytes -> Decoded<P>): Page<P>
    requires offset <= size <= |log|
  {
    var readEnd := Min(offset + budget, size);
    var start := PageStart(log, offset, readEnd);
    var entries, at := Entries(log, start, readEnd, decode), Rest(log, start, readEnd);
    var inside := !Boundary(log, offset);
    var next := if inside && Newline(log, offset, readEnd) == readEnd then offset else at;
    Page(offset, readEnd, next, next < size, Events(entries),
         (if inside then [Gap(offset, TailStartsInsideRecord)] else []) + Gaps(entries) + TailGap(log, offset, at, readEnd, size),
         Unknowns(entries))
  }

  lemma {:induction false} NewlineShift(log: Bytes, offset: nat, end: nat, i: nat)
    requires offset <= end <= |log| && i <= end - offset
    ensures Newline(log[offset..end], i, end - offset) == Newline(log, offset + i, end) - offset
    decreases end - offset - i
  {
    if i < end - offset && log[offset + i] != NEWLINE {
      NewlineShift(log, offset, end, i + 1);
    }
  }

  lemma {:induction false} NewlineLonger(log: Bytes, c: nat, m: nat, end: nat)
    requires c <= m <= end <= |log|
    ensures var n := Newline(log, c, m); n < m ==> Newline(log, c, end) == n
    decreases m - c
  {
    if c < m && log[c] != NEWLINE {
      NewlineLonger(log, c + 1, m, end);
    }
  }

  lemma ReadsOn<P>(log: Bytes, c: nat, end: nat, decode: Bytes -> Decoded<P>)
    requires c <= end <= |log|
    ensures var n := Newline(log, c, end);
            if n == end then Entries(log, c, end, decode) == [] && Rest(log, c, end) == c
            else && Entries(log, c, end, decode) == [Entry(c, n + 1, decode(log[c..n]))] + Entries(log, n + 1, end, decode)
                 && Rest(log, c, end) == Rest(log, n + 1, end)
  {
  }

  /** Reading on from where a shorter read stopped gives the rest of a longer read. */
  lemma {:induction false} EntriesSplit<P>(log: Bytes, c: nat, m: nat, end: nat, decode: Bytes -> Decoded<P>)
    requires c <= m <= end <= |log|
    ensures Entries(log, c, end, decode) == Entries(log, c, m, decode) + Entries(log, Rest(log, c, m), end, decode)
    ensures Rest(log, c, end) == Rest(log, Rest(log, c, m), end)
    decreases m - c
  {
    hide Newline, Entries, Rest;
    var n := Newline(log, c, m);
    NewlineLonger(log, c, m, end);
    ReadsOn(log, c, m, decode);
    if n < m {
      ReadsOn(log, c, end, decode);
      EntriesSplit(log, n + 1, m, end, decode);
    }
  }

  lemma {:induction false} RestIsBoundary(log: Bytes, c: nat, end: nat)
    requires c <= end <= |log| && Boundary(log, c)
    ensures Boundary(log, Rest(log, c, end))
    decreases end - c
  {
    hide Newline;
    var n := Newline(log, c, end);
    if n < end {
      RestIsBoundary(log, n + 1, end);
    }
  }

  /** The bytes of one record end with the first line feed (10) after its start, and it is decoded
      without it. */
  ghost predicate IsRecord<P>(log: Bytes, x: Entry<P>, c: nat, end: nat, decode: Bytes -> Decoded<P>)
    requires end <= |log|
  {
    && c <= x.offset < x.end <= end && log[x.end - 1] == 10 && x.what == decode(log[x.offset..x.end - 1])
    && forall k | x.offset <= k < x.end - 1 :: log[k] != 10
  }

  /** What a page's records are: one after the other from `c` on, and no line feed is left behind the
      last. */
  lemma {:induction false} EntriesMean<P>(log: Bytes, c: nat, end: nat, decode: Bytes -> Decoded<P>)
    requires c <= end <= |log|
    ensures var es, r := Entries(log, c, end, decode), Rest(log, c, end);
            && (if es == [] then r == c else es[0].offset == c && es[|es| - 1].end == r)
            && (forall i | 0 <= i < |es| - 1 :: es[i + 1].offset == es[i].end)
            && (forall x <- es :: IsRecord(log, x, c, end, decode))
            && forall k | r <= k < end :: log[k] != 10
    decreases end - c
  {
    var n := Newline(log, c, end);
    ReadsOn(log, c, end, decode);
    hide Newline, Entries, Rest;
    if n < end {
      EntriesMean(log, n + 1, end, decode);
      assert IsRecord(log, Entry(c, n + 1, decode(log[c..n])), c, end, decode);
    }
  }

  /** The page shows each record that is to be shown, where it lies. */
  lemma {:induction false} EventsMean<P>(entries: seq<Entry<P>>, e: Event<P>)
    ensures e in Events(entries) <==>
            exists i | 0 <= i < |entries| :: entries[i].what.Shown? && e == Event(entries[i].offset, entries[i].end, entries[i].what.event)
  {
    if entries != [] {
      var n := |entries| - 1;
      EventsMean(entries[..n], e);
      assert forall i | 0 <= i < n :: entries[..n][i] == entries[i];
    }
  }

  /** The record at `i` carries a time, and the last one before it that does is later. */
  ghost predicate StepsBack<P>(entries: seq<Entry<P>>, i: nat)
    requires i < |entries|
  {
    && (entries[i].what.Hidden? || entries[i].what.Shown?)
    && exists j | 0 <= j < i ::
         && (entries[j].what.Hidden? || entries[j].what.Shown?) && entries[i].what.at < entries[j].what.at
         && forall k | j < k < i :: entries[k].what.UnknownType? || entries[k].what.Invalid?
  }

  /** Which gaps the records of a page leave: those of an unknown kind, those that cannot be read, and
      those whose time steps back behind the last record that carries one. */
  lemma {:induction false} GapsMean<P>(entries: seq<Entry<P>>, g: Gap)
    ensures g in Gaps(entries) <==>
            exists i | 0 <= i < |entries| ::
              && g.offset == entries[i].offset
              && (|| (g.kind == UnknownEventKind && entries[i].what.UnknownType?)
                  || (g.kind == InvalidRecord && entries[i].what.Invalid?)
                  || (g.kind == TimeOutOfOrder && StepsBack(entries, i)))
  {
    if entries != [] {
      var n := |entries| - 1;
      var before := entries[..n];
      GapsMean(before, g);
      if entries[n].what.Hidden? || entries[n].what.Shown? {
        PriorMeans(entries, n);
      }
      forall i | 0 <= i < n ensures StepsBack(entries, i) <==> StepsBack(before, i) {
        SameSteps(entries, n, i);
      }
      assert forall i | 0 <= i < n :: before[i] == entries[i];
      hide StepsBack, Prior;
    }
  }

  lemma SameSteps<P>(entries: seq<Entry<P>>, n: nat, i: nat)
    requires i < n <= |entries|
    ensures StepsBack(entries, i) <==> StepsBack(entries[..n], i)
  {
    var before := entries[..n];
    assert forall j | 0 <= j < n :: before[j] == entries[j];
    if StepsBack(entries, i) {
      var j :| 0 <= j < i && (entries[j].what.Hidden? || entries[j].what.Shown?) && entries[i].what.at < entries[j].what.at
               && forall k | j < k < i :: entries[k].what.UnknownType? || entries[k].what.Invalid?;
      assert before[j] == entries[j];
    }
    if StepsBack(before, i) {
      var j :| 0 <= j < i && (before[j].what.Hidden? || before[j].what.Shown?) && before[i].what.at < before[j].what.at
               && forall k | j < k < i :: before[k].what.UnknownType? || before[k].what.Invalid?;
      forall k | j < k < i ensures entries[k].what.UnknownType? || entries[k].what.Invalid? {
        assert before[k] == entries[k];
      }
      assert entries[j] == before[j];
    }
  }

  lemma {:induction false} PriorMeans<P>(entries: seq<Entry<P>>, i: nat)
    requires i < |entries| && (entries[i].what.Hidden? || entries[i].what.Shown?)
    ensures StepsBack(entries, i) <==> entries[i].what.at < Prior(entries[..i])
  {
    var m := LastTimed(entries[..i]);
    assert forall j | 0 <= j < i :: entries[..i][j] == entries[j];
  }

  /** How many of the records there are up to the last that carries a time. */
  lemma {:induction false} LastTimed<P>(entries: seq<Entry<P>>) returns (m: nat)
    ensures m <= |entries|
    ensures m == 0 ==> Prior(entries) == 0
    ensures m > 0 ==> (entries[m - 1].what.Hidden? || entries[m - 1].what.Shown?) && Prior(entries) == entries[m - 1].what.at
    ensures forall k | m <= k < |entries| :: entries[k].what.UnknownType? || entries[k].what.Invalid?
  {
    if entries == [] {
      m := 0;
    } else if entries[|entries| - 1].what.Hidden? || entries[|entries| - 1].what.Shown? {
      m := |entries|;
    } else {
      m := LastTimed(entries[..|entries| - 1]);
    }
  }

  /** What a page says beside its records: it reads its budget or up to the log's size, starts behind
      the first line feed when it does not start at a record, tells what it leaves unread at its end,
      and asks to go on where its last whole record ends. */
  lemma PageMeans<P>(log: Bytes, size: nat, offset: nat, budget: nat, decode: Bytes -> Decoded<P>, start: nat)
    requires offset <= size <= |log|
    requires var readEnd := if offset + budget <= size then offset + budget else size;
             if offset == 0 || log[offset - 1] == 10 then start == offset
             else || (offset < start <= readEnd && log[start - 1] == 10 && forall k | offset <= k < start - 1 :: log[k] != 10)
                  || (start == readEnd && forall k | offset <= k < readEnd :: log[k] != 10)
    ensures var page := PageOf(log, size, offset, budget, decode);
            var inside := offset > 0 && log[offset - 1] != 10;
            var end := Rest(log, start, page.readEnd);
            && page.offset == offset && page.readEnd == (if offset + budget <= size then offset + budget else size)
            && page.events == Events(Entries(log, start, page.readEnd, decode))
            && page.unknown == Unknowns(Entries(log, start, page.readEnd, decode))
            && page.next == (if inside && (start == offset || log[start - 1] != 10) then offset else end)
            && (page.more <==> page.next < size)
            && page.gaps == (if inside then [Gap(offset, TailStartsInsideRecord)] else [])
                            + Gaps(Entries(log, start, page.readEnd, decode))
                            + (if end == page.readEnd then []
                               else [Gap(end, if page.readEnd == size then IncompleteTail
                                              else if end == offset then RecordExceedsBudget else PageEndsInsideRecord)])
  {
    var readEnd := Min(offset + budget, size);
    assert start == PageStart(log, offset, readEnd);
    hide Entries, Rest, Newline;
  }

  lemma {:induction false} EventsJoin<P>(a: seq<Entry<P>>, b: seq<Entry<P>>)
    ensures Events(a + b) == Events(a) + Events(b) && Unknowns(a + b) == Unknowns(a) + Unknowns(b)
  {
    if b == [] {
      assert a + b == a;
    } else {
      assert (a + b)[..|a + b| - 1] == a + b[..|b| - 1];
      EventsJoin(a, b[..|b| - 1]);
    }
  }

  /** The pages a reader gets by following Next from 0, while the log only grows: each sees the first
      `sizes[i]` bytes and takes its own budget. */
  ghost predicate Follows<P(!new)>(log: Bytes, sizes: seq<nat>, budgets: seq<nat>, pages: seq<Page<P>>, decode: Bytes -> Decoded<P>) {
    && |sizes| == |pages| && |budgets| == |pages|
    && (forall i | 0 <= i < |pages| :: sizes[i] <= |log|)
    && (forall i, j | 0 <= i <= j < |pages| :: sizes[i] <= sizes[j])
    && forall i | 0 <= i < |pages| :: Continues(log, sizes[i], budgets[i], pages, i, decode)
  }

  /** A page starts at the Next of the page before it. */
  ghost predicate Continues<P>(
      log: Bytes, size: nat, budget: nat, pages: seq<Page<P>>, i: nat, decode: Bytes -> Decoded<P>)
    requires size <= |log| && i < |pages|
  {
    var from := if i == 0 then 0 else pages[i - 1].next;
    from <= size && pages[i] == PageOf(log, size, from, budget, decode)
  }

  function AllEvents<P>(pages: seq<Page<P>>): seq<Event<P>> {
    if pages == [] then [] else AllEvents(pages[..|pages| - 1]) + pages[|pages| - 1].events
  }

  function AllUnknown<P>(pages: seq<Page<P>>): nat {
    if pages == [] then 0 else AllUnknown(pages[..|pages| - 1]) + pages[|pages| - 1].unknown
  }

  function NextOf<P>(pages: seq<Page<P>>): nat {
    if pages == [] then 0 else pages[|pages| - 1].next
  }

  /** However the budgets cut it and however it grows, the pages so far hold the records up to the
      last Next, each once, at their own offsets, and Next is a record boundary. */
  lemma {:induction false} PagesAreOnePass<P(!new)>(
      log: Bytes, sizes: seq<nat>, budgets: seq<nat>, pages: seq<Page<P>>, decode: Bytes -> Decoded<P>, end: nat)
    requires Follows(log, sizes, budgets, pages, decode) && end <= |log|
    requires pages != [] ==> sizes[|pages| - 1] <= end
    ensures NextOf(pages) <= end && Boundary(log, NextOf(pages))
    ensures var all, left := Entries(log, 0, end, decode), Entries(log, NextOf(pages), end, decode);
            AllEvents(pages) + Events(left) == Events(all) && AllUnknown(pages) + Unknowns(left) == Unknowns(all)
    ensures Rest(log, NextOf(pages), end) == Rest(log, 0, end)
  {
    hide *;
    FollowsFrom(log, sizes, budgets, pages, decode);
    if pages == [] {
      NoPages<P>(log);
    } else {
      var n := |pages| - 1;
      PagesAreOnePass(log, sizes[..n], budgets[..n], pages[..n], decode, end);
      PageReads(log, sizes[n], NextOf(pages[..n]), budgets[n], decode, end);
      PagesAppend(pages);
    }
  }

  /** One page holds the records up to its Next. */
  lemma PageReads<P>(log: Bytes, size: nat, offset: nat, budget: nat, decode: Bytes -> Decoded<P>, end: nat)
    requires offset <= size <= end <= |log| && Boundary(log, offset)
    ensures var page := PageOf(log, size, offset, budget, decode);
            && page.next <= end && Boundary(log, page.next)
            && Events(Entries(log, offset, end, decode)) == page.events + Events(Entries(log, page.next, end, decode))
            && Unknowns(Entries(log, offset, end, decode)) == page.unknown + Unknowns(Entries(log, page.next, end, decode))
            && Rest(log, page.next, end) == Rest(log, offset, end)
  {
    hide Newline, Entries, Rest, Events, Unknowns;
    var readEnd := Min(offset + budget, size);
    RestIsBoundary(log, offset, readEnd);
    EntriesSplit(log, offset, readEnd, end, decode);
    EventsJoin(Entries(log, offset, readEnd, decode), Entries(log, Rest(log, offset, readEnd), end, decode));
  }

  lemma NoPages<P>(log: Bytes)
    ensures NextOf<P>([]) == 0 && AllEvents<P>([]) == [] && AllUnknown<P>([]) == 0 && Boundary(log, 0)
  {
  }

  lemma PagesAppend<P>(pages: seq<Page<P>>)
    requires pages != []
    ensures var rest, page := pages[..|pages| - 1], pages[|pages| - 1];
            && NextOf(pages) == page.next && AllEvents(pages) == AllEvents(rest) + page.events
            && AllUnknown(pages) == AllUnknown(rest) + page.unknown
  {
  }

  lemma FollowsFrom<P(!new)>(log: Bytes, sizes: seq<nat>, budgets: seq<nat>, pages: seq<Page<P>>, decode: Bytes -> Decoded<P>)
    requires Follows(log, sizes, budgets, pages, decode)
    ensures |sizes| == |pages| && |budgets| == |pages|
    ensures pages != [] ==>
              var n := |pages| - 1;
              && Follows(log, sizes[..n], budgets[..n], pages[..n], decode)
              && (n > 0 ==> sizes[n - 1] <= sizes[n])
              && NextOf(pages[..n]) <= sizes[n] <= |log|
              && pages[n] == PageOf(log, sizes[n], NextOf(pages[..n]), budgets[n], decode)
  {
    hide PageOf;
    if pages != [] {
      var n := |pages| - 1;
      assert Continues(log, sizes[n], budgets[n], pages, n, decode);
      var ss, bs, ps := sizes[..n], budgets[..n], pages[..n];
      forall i | 0 <= i < n ensures Continues(log, ss[i], bs[i], ps, i, decode) {
        assert Continues(log, sizes[i], budgets[i], pages, i, decode);
      }
    }
  }

  /** Every record complete in the first `size` bytes takes at most `budget` bytes. */
  ghost predicate Fits(log: Bytes, size: nat, budget: nat)
    requires size <= |log|
  {
    forall c | 0 <= c < size && Boundary(log, c) :: Newline(log, c, size) == size || Newline(log, c, size) + 1 - c <= budget
  }

  /** A page advances exactly when a complete record starts at its offset and fits its budget. */
  lemma AdvancesIff<P>(log: Bytes, size: nat, offset: nat, budget: nat, decode: Bytes -> Decoded<P>)
    requires offset <= size <= |log| && Boundary(log, offset)
    ensures PageOf(log, size, offset, budget, decode).next > offset <==>
            Newline(log, offset, size) < size && Newline(log, offset, size) + 1 - offset <= budget
  {
    var readEnd := Min(offset + budget, size);
    NewlineLonger(log, offset, readEnd, size);
  }

  /** When the records fit, a reader stuck at the end of its pages has read every complete record:
      the pages' events are the single read's, and at most an incomplete record is left. */
  lemma StuckIsDone<P(!new)>(
      log: Bytes, sizes: seq<nat>, budgets: seq<nat>, pages: seq<Page<P>>, decode: Bytes -> Decoded<P>)
    requires Follows(log, sizes, budgets, pages, decode) && pages != []
    requires var n := |pages| - 1;
             |sizes| == n + 1 == |budgets| && sizes[n] == |log| && Fits(log, |log|, budgets[n]) && pages[n].next == pages[n].offset
    ensures AllEvents(pages) == Events(Entries(log, 0, |log|, decode))
    ensures AllUnknown(pages) == Unknowns(Entries(log, 0, |log|, decode))
    ensures NextOf(pages) == Rest(log, 0, |log|)
    ensures pages[|pages| - 1].more <==> Rest(log, 0, |log|) < |log|
  {
    hide *;
    var n := |pages| - 1;
    FollowsFrom(log, sizes, budgets, pages, decode);
    PagesAreOnePass(log, sizes, budgets, pages, decode, |log|);
    PagesAreOnePass(log, sizes[..n], budgets[..n], pages[..n], decode, |log|);
    PagesAppend(pages);
    var c := NextOf(pages[..n]);
    MoreIff(log, |log|, c, budgets[n], decode);
    AdvancesIff(log, |log|, c, budgets[n], decode);
    FitsAt(log, |log|, budgets[n], c);
    NothingLeft(log, c, decode);
  }

  lemma FitsAt(log: Bytes, size: nat, budget: nat, c: nat)
    requires c <= size <= |log| && Fits(log, size, budget) && Boundary(log, c)
    ensures Newline(log, c, size) == size || Newline(log, c, size) + 1 - c <= budget
  {
  }

  lemma NothingLeft<P>(log: Bytes, c: nat, decode: Bytes -> Decoded<P>)
    requires c <= |log| && Newline(log, c, |log|) == |log|
    ensures Events(Entries(log, c, |log|, decode)) == [] && Unknowns(Entries(log, c, |log|, decode)) == 0
    ensures Rest(log, c, |log|) == c
  {
  }

  lemma MoreIff<P>(log: Bytes, size: nat, offset: nat, budget: nat, decode: Bytes -> Decoded<P>)
    requires offset <= size <= |log|
    ensures var page := PageOf(log, size, offset, budget, decode); page.offset == offset && (page.more <==> page.next < size)
  {
  }

  /** What the scan has collected from some records. */
  ghost predicate Collected<P>(entries: seq<Entry<P>>, events: seq<Event<P>>, gaps: seq<Gap>, unknown: nat, prior: Time) {
    events == Events(entries) && gaps == Gaps(entries) && unknown == Unknowns(entries) && prior == Prior(entries)
  }

  lemma CollectedNext<P>(
      entries: seq<Entry<P>>, x: Entry<P>, events: seq<Event<P>>, gaps: seq<Gap>, unknown: nat, prior: Time)
    requires Collected(entries, events, gaps, unknown, prior)
    ensures match x.what
            case UnknownType => Collected(entries + [x], events, gaps + [Gap(x.offset, UnknownEventKind)], unknown + 1, prior)
            case Invalid => Collected(entries + [x], events, gaps + [Gap(x.offset, InvalidRecord)], unknown, prior)
            case _ =>
              Collected(entries + [x],
                        events + Projected(x),
                        if prior != 0 && x.what.at < prior then gaps + [Gap(x.offset, TimeOutOfOrder)] else gaps,
                        unknown, x.what.at)
  {
    assert (entries + [x])[..|entries|] == entries;
  }

  /** The records up to offset `at` are read; the rest of the page is not. */
  ghost predicate ReadTo<P>(log: Bytes, start: nat, at: nat, readEnd: nat, entries: seq<Entry<P>>, decode: Bytes -> Decoded<P>)
    requires start <= at <= readEnd <= |log|
  {
    && Entries(log, start, readEnd, decode) == entries + Entries(log, at, readEnd, decode)
    && Rest(log, start, readEnd) == Rest(log, at, readEnd)
  }

  lemma ReadToNext<P>(log: Bytes, start: nat, at: nat, readEnd: nat, entries: seq<Entry<P>>, decode: Bytes -> Decoded<P>)
    requires start <= at <= readEnd <= |log| && ReadTo(log, start, at, readEnd, entries, decode)
    ensures var n := Newline(log, at, readEnd);
            if n == readEnd then Entries(log, start, readEnd, decode) == entries && Rest(log, start, readEnd) == at
            else ReadTo(log, start, n + 1, readEnd, entries + [Entry(at, n + 1, decode(log[at..n]))], decode)
  {
    hide Newline, Entries, Rest;
    ReadsOn(log, at, readEnd, decode);
    assert entries + [] == entries;
  }

  /** The record loop: a cursor over the bytes of this page alone. */
  method ScanRecords<P>(log: Bytes, offset: nat, readEnd: nat, from: nat, decode: Bytes -> Decoded<P>)
    returns (cursor: nat, events: seq<Event<P>>, gaps: seq<Gap>, unknown: nat)
    requires offset + from <= readEnd <= |log|
    ensures offset + cursor == Rest(log, offset + from, readEnd)
    ensures var entries := Entries(log, offset + from, readEnd, decode);
            events == Events(entries) && gaps == Gaps(entries) && unknown == Unknowns(entries)
  {
    hide Entries, Rest, Newline, ReadTo, Collected, Events, Gaps, Unknowns, Prior;
    var data := log[offset..readEnd];
    var prior: Time;
    cursor, events, gaps, unknown, prior := from, [], [], 0, 0;
    ghost var start, entries: seq<Entry<P>> := offset + from, [];
    ScanStarts(log, start, readEnd, decode);
    while cursor < |data|
      invariant from <= cursor <= |data| && ReadTo(log, start, offset + cursor, readEnd, entries, decode)
      invariant Collected(entries, events, gaps, unknown, prior)
    {
      ReadToNext(log, start, offset + cursor, readEnd, entries, decode);
      NewlineShift(log, offset, readEnd, cursor);
      var newline := Newline(data, cursor, |data|);
      if newline == |data| {
        CollectedMeans(entries, events, gaps, unknown, prior);
        return;
      }
      SliceOfSlice(log, offset, readEnd, cursor, newline);
      var at, e := offset + cursor, decode(data[cursor..newline]);
      var x := Entry(at, offset + newline + 1, e);
      CollectedNext(entries, x, events, gaps, unknown, prior);
      entries := entries + [x];
      cursor := newline + 1;
      match e {
        case UnknownType =>
          unknown := unknown + 1;
          gaps := gaps + [Gap(at, UnknownEventKind)];
        case Invalid =>
          gaps := gaps + [Gap(at, InvalidRecord)];
        case _ =>
          if prior != 0 && e.at < prior {
            gaps := gaps + [Gap(at, TimeOutOfOrder)];
          }
          prior := e.at;
          events := events + Projected(x);
      }
    }
    ReadToNext(log, start, offset + cursor, readEnd, entries, decode);
    CollectedMeans(entries, events, gaps, unknown, prior);
  }

  lemma ScanStarts<P>(log: Bytes, start: nat, readEnd: nat, decode: Bytes -> Decoded<P>)
    requires start <= readEnd <= |log|
    ensures ReadTo(log, start, start, readEnd, [], decode) && Collected<P>([], [], [], 0, 0)
  {
  }

  lemma CollectedMeans<P>(entries: seq<Entry<P>>, events: seq<Event<P>>, gaps: seq<Gap>, unknown: nat, prior: Time)
    requires Collected(entries, events, gaps, unknown, prior)
    ensures events == Events(entries) && gaps == Gaps(entries) && unknown == Unknowns(entries)
  {
  }

  lemma SliceOfSlice(log: Bytes, a: nat, b: nat, i: nat, j: nat)
    requires a <= b <= |log| && i <= j <= b - a
    ensures log[a..b][i..j] == log[a + i..a + j]
  {
    var x, y := log[a..b][i..j], log[a + i..a + j];
    forall k | 0 <= k < |x| ensures x[k] == y[k] {
      assert x[k] == log[a..b][i + k];
    }
  }

  /** One page, or the reason it is refused. */
  method ReadLogMetadata<P>(log: Bytes, size: nat, from: nat, budget: nat, summary: bool, decode: Bytes -> Decoded<P>)
    returns (r: Read<P>)
    requires size <= |log|
    ensures var offset: nat := if summary then (if size > budget then size - budget else 0) else from;
            r == if offset > size then OffsetPastEnd
                 else if !summary && !Boundary(log, offset) then NotABoundary
                 else Ok(PageOf(log, size, offset, budget, decode))
  {
    hide Entries, Rest, Newline, Events, Gaps, Unknowns;
    var offset: nat := if summary then (if size > budget then size - budget else 0) else from;
    if offset > size {
      return OffsetPastEnd;
    }
    var inside := offset > 0 && log[offset - 1] != NEWLINE;
    if inside && !summary {
      return NotABoundary;
    }
    var readEnd := Min(offset + budget, size);
    var head: seq<Gap> := if inside then [Gap(offset, TailStartsInsideRecord)] else [];
    var cursor: nat, stuck := 0, false;
    if inside {
      NewlineShift(log, offset, readEnd, 0);
      var data := log[offset..readEnd];
      var newline := Newline(data, 0, |data|);
      stuck := newline == |data|;
      cursor := if stuck then |data| else newline + 1;
    }
    assert offset + cursor == PageStart(log, offset, readEnd);
    var events, gaps, unknown;
    cursor, events, gaps, unknown := ScanRecords(log, offset, readEnd, cursor, decode);
    var next := if stuck then offset else offset + cursor;
    return Ok(Page(offset, readEnd, next, next < size, events,
                   head + gaps + TailGap(log, offset, offset + cursor, readEnd, size), unknown));
  }
}
