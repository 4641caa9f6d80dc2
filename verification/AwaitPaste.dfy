/** Waiting between a paste and its submit key (harness/await.go). What one screen shows is the
    frame's reading; the frames and the clock are given. */
module AwaitPaste {
  import opened Records

  /** Why a composer is refused. */
  datatype Refusal = Clipped | OwnerClipped | Foreign

  datatype Reading = Unseen | PasteShown | ReadEmpty | OtherText | Refused(why: Refusal) | Broken

  datatype Frame = Frame(at: Time, reading: Reading)

  /** What ends the stream when no frame does. */
  datatype End = Deadline | CaptureFailed

  datatype Verdict =
    | Ready | Emptied | Replaced | Refuse(why: Refusal) | ReadFailed
    | ExpiredReplaced | ExpiredRefused(why: Refusal) | Expired | NoCapture

  /** How often the pane is read, in milliseconds. */
  const COMPOSER_FRAME: Time := 25

  function Max(a: Time, b: Time): Time {
    if a < b then b else a
  }

  /** The readings whose windows are timed. */
  datatype Kind = AnyEmpty | AnyOther | AnyRefusal

  predicate Is(kind: Kind, r: Reading) {
    match kind
    case AnyEmpty => r.ReadEmpty?
    case AnyOther => r.OtherText?
    case AnyRefusal => r.Refused?
  }

  /** Every frame from `j` to `i` reads so, over at least `least`. */
  ghost predicate Window(frames: seq<Frame>, j: nat, i: nat, kind: Kind, least: Time) {
    && j <= i < |frames| && (forall k | j <= k <= i :: Is(kind, frames[k].reading))
    && frames[i].at >= frames[j].at + least
  }

  ghost predicate Painted(frames: seq<Frame>, n: nat)
    requires n <= |frames|
  {
    exists p | 0 <= p < n :: frames[p].reading.PasteShown?
  }

  /** What makes the wait stop at frame `i` with a verdict, read off the frames alone. */
  ghost predicate Stops(frames: seq<Frame>, start: Time, settle: Time, i: nat, v: Verdict)
    requires i < |frames|
  {
    match v
    case Ready => frames[i].reading.PasteShown? && frames[i].at >= start + settle
    case Emptied => Painted(frames, i) && exists j :: Window(frames, j, i, AnyEmpty, settle)
    case Replaced => exists j :: Window(frames, j, i, AnyOther, Max(settle, COMPOSER_FRAME))
    case Refuse(why) =>
      frames[i].reading == Refused(why) && exists j :: Window(frames, j, i, AnyRefusal, Max(settle, COMPOSER_FRAME))
    case ReadFailed => frames[i].reading.Broken?
    case _ => false
  }

  /** No verdict stops the wait at frame `i`. */
  ghost predicate GoesOn(frames: seq<Frame>, start: Time, settle: Time, i: nat)
    requires i < |frames|
  {
    forall v :: !Stops(frames, start, settle, i, v)
  }

  /** The last frame before `n` that read the composer at all. */
  function LastRead(frames: seq<Frame>, n: nat): Option<Reading>
    requires n <= |frames|
  {
    if n == 0 then None
    else
      var r := frames[n - 1].reading;
      if r.PasteShown? || r.ReadEmpty? || r.OtherText? then Some(r) else LastRead(frames, n - 1)
  }

  /** The verdict at the deadline: other text read last comes first, then a refusal in the last frame. */
  function AtEnd(frames: seq<Frame>, end: End): Verdict {
    if end.CaptureFailed? then NoCapture
    else if LastRead(frames, |frames|) == Some(OtherText) then ExpiredReplaced
    else if frames != [] && frames[|frames| - 1].reading.Refused? then ExpiredRefused(frames[|frames| - 1].reading.why)
    else Expired
  }

  /** The last frame that read the composer held other text. */
  ghost predicate OtherTextLast(frames: seq<Frame>) {
    exists i | 0 <= i < |frames| ::
      && frames[i].reading.OtherText?
      && forall j | i < j < |frames| ::
           !frames[j].reading.PasteShown? && !frames[j].reading.ReadEmpty? && !frames[j].reading.OtherText?
  }

  /** What the deadline says: a failed capture first, then other text, then a refusal that still stood. */
  lemma AtEndMeans(frames: seq<Frame>, end: End)
    ensures AtEnd(frames, end) == NoCapture <==> end.CaptureFailed?
    ensures AtEnd(frames, end) == ExpiredReplaced <==> end.Deadline? && OtherTextLast(frames)
    ensures forall why :: AtEnd(frames, end) == ExpiredRefused(why) <==>
      end.Deadline? && !OtherTextLast(frames) && frames != [] && frames[|frames| - 1].reading == Refused(why)
    ensures AtEnd(frames, end) == Expired <==>
      end.Deadline? && !OtherTextLast(frames) && (frames == [] || !frames[|frames| - 1].reading.Refused?)
  {
    LastReadMeans(frames, |frames|);
    hide LastRead;
    assert frames[..|frames|] == frames;
  }

  lemma {:induction false} LastReadMeans(frames: seq<Frame>, n: nat)
    requires n <= |frames|
    ensures LastRead(frames, n) == Some(OtherText) <==> OtherTextLast(frames[..n])
  {
    if n > 0 {
      LastReadMeans(frames, n - 1);
      var last, before := frames[..n], frames[..n - 1];
      var r := frames[n - 1].reading;
      if r.OtherText? {
        assert last[n - 1].reading.OtherText?;
      } else if !r.PasteShown? && !r.ReadEmpty? {
        assert forall i | 0 <= i < n - 1 :: last[i] == before[i];
        if i :| 0 <= i < n - 1 && before[i].reading.OtherText?
                && forall j | i < j < n - 1 ::
                     !before[j].reading.PasteShown? && !before[j].reading.ReadEmpty? && !before[j].reading.OtherText? {
          assert last[i].reading.OtherText?;
          forall j | i < j < n
            ensures !last[j].reading.PasteShown? && !last[j].reading.ReadEmpty? && !last[j].reading.OtherText?
          {
            assert j < n - 1 ==> last[j] == before[j];
          }
        }
        if i :| 0 <= i < n && last[i].reading.OtherText?
                && forall j | i < j < n ::
                     !last[j].reading.PasteShown? && !last[j].reading.ReadEmpty? && !last[j].reading.OtherText? {
          assert i < n - 1 && before[i].reading.OtherText?;
          forall j | i < j < n - 1
            ensures !before[j].reading.PasteShown? && !before[j].reading.ReadEmpty? && !before[j].reading.OtherText?
          {
            assert last[j] == before[j];
          }
        }
      } else {
        assert last[n - 1].reading == r;
      }
    }
  }

  /** Where the run of such frames that ends before `n` starts; `n` when there is none. */
  function Start(frames: seq<Frame>, n: nat, kind: Kind): (j: nat)
    requires n <= |frames|
    ensures j <= n && (forall k | j <= k < n :: Is(kind, frames[k].reading))
    ensures j > 0 ==> !Is(kind, frames[j - 1].reading)
  {
    if n == 0 || !Is(kind, frames[n - 1].reading) then n else Start(frames, n - 1, kind)
  }

  ghost predicate Nondecreasing(frames: seq<Frame>, start: Time) {
    && (forall i, j | 0 <= i <= j < |frames| :: frames[i].at <= frames[j].at)
    && forall i | 0 <= i < |frames| :: start <= frames[i].at
  }

  /** A window ends at a frame exactly when the run of frames that ends there is long enough. */
  lemma WindowIff(frames: seq<Frame>, start: Time, i: nat, kind: Kind, least: Time)
    requires i < |frames| && Nondecreasing(frames, start)
    ensures var s := Start(frames, i + 1, kind);
            (exists j :: Window(frames, j, i, kind, least)) <==> s <= i && frames[i].at >= frames[s].at + least
  {
    var s := Start(frames, i + 1, kind);
    forall j: nat | j < s ensures !Window(frames, j, i, kind, least) {
      assert !Is(kind, frames[s - 1].reading);
    }
    if s <= i && frames[i].at >= frames[s].at + least {
      assert Window(frames, s, i, kind, least);
    }
  }

  /** When the run of such frames that ends before `n` started, if there is one. */
  function Since(frames: seq<Frame>, n: nat, kind: Kind): Option<Time>
    requires n <= |frames|
  {
    var s := Start(frames, n, kind);
    if s < n then Some(frames[s].at) else None
  }

  lemma SinceNext(frames: seq<Frame>, n: nat, kind: Kind)
    requires n < |frames|
    ensures Since(frames, n + 1, kind) ==
              if !Is(kind, frames[n].reading) then None
              else if Since(frames, n, kind).Some? then Since(frames, n, kind) else Some(frames[n].at)
  {
  }

  /** How long the run of such frames that ends at frame `i` has lasted. */
  function Lasted(frames: seq<Frame>, i: nat, kind: Kind): int
    requires i < |frames| && Is(kind, frames[i].reading)
  {
    SinceNext(frames, i, kind);
    frames[i].at - Since(frames, i + 1, kind).value
  }

  /** The verdict due at frame `i`: what it reads, once it has lasted. */
  ghost function Due(frames: seq<Frame>, start: Time, settle: Time, i: nat): Option<Verdict>
    requires i < |frames|
  {
    match frames[i].reading
    case PasteShown => if frames[i].at - start >= settle then Some(Ready) else None
    case ReadEmpty => if Painted(frames, i) && Lasted(frames, i, AnyEmpty) >= settle then Some(Emptied) else None
    case OtherText => if Lasted(frames, i, AnyOther) >= Max(settle, COMPOSER_FRAME) then Some(Replaced) else None
    case Refused(why) => if Lasted(frames, i, AnyRefusal) >= Max(settle, COMPOSER_FRAME) then Some(Refuse(why)) else None
    case Broken => Some(ReadFailed)
    case Unseen => None
  }

  lemma StopsIffDue(frames: seq<Frame>, start: Time, settle: Time, i: nat, v: Verdict)
    requires i < |frames| && Nondecreasing(frames, start)
    ensures Stops(frames, start, settle, i, v) <==> Due(frames, start, settle, i) == Some(v)
  {
    hide Window, Painted;
    match v
    case Emptied => WindowIff(frames, start, i, AnyEmpty, settle);
    case Replaced => WindowIff(frames, start, i, AnyOther, Max(settle, COMPOSER_FRAME));
    case Refuse(_) => WindowIff(frames, start, i, AnyRefusal, Max(settle, COMPOSER_FRAME));
    case _ =>
  }

  lemma GoesOnIffNoneDue(frames: seq<Frame>, start: Time, settle: Time, i: nat)
    requires i < |frames| && Nondecreasing(frames, start)
    ensures GoesOn(frames, start, settle, i) <==> Due(frames, start, settle, i) == None
  {
    hide Stops, Due;
    forall v ensures Stops(frames, start, settle, i, v) <==> Due(frames, start, settle, i) == Some(v) {
      StopsIffDue(frames, start, settle, i, v);
    }
    var due := Due(frames, start, settle, i);
    assert due.Some? ==> Stops(frames, start, settle, i, due.value);
  }

  /** What stops the wait, in the clock's own terms: a shown paste once the settle time is over; an
      emptied composer that stayed so for the settle time, after a paste was seen; other text, or a
      refusal, that stood in every frame for the settle time and for no less than 25 milliseconds; a
      screen that cannot be read. Nothing else does. */
  lemma StopsMeans(frames: seq<Frame>, start: Time, settle: Time, i: nat)
    requires i < |frames|
    ensures Stops(frames, start, settle, i, Ready) <==>
            frames[i].reading == PasteShown && frames[i].at - start >= settle
    ensures Stops(frames, start, settle, i, Emptied) <==>
            && (exists p | 0 <= p < i :: frames[p].reading == PasteShown)
            && exists j | 0 <= j <= i :: frames[i].at - frames[j].at >= settle && forall k | j <= k <= i :: frames[k].reading == ReadEmpty
    ensures Stops(frames, start, settle, i, Replaced) <==>
            exists j | 0 <= j <= i ::
              && frames[i].at - frames[j].at >= settle && frames[i].at - frames[j].at >= 25
              && forall k | j <= k <= i :: frames[k].reading == OtherText
    ensures forall why :: Stops(frames, start, settle, i, Refuse(why)) <==>
              && frames[i].reading == Refused(why)
              && exists j | 0 <= j <= i ::
                   && frames[i].at - frames[j].at >= settle && frames[i].at - frames[j].at >= 25
                   && forall k | j <= k <= i :: frames[k].reading.Refused?
    ensures Stops(frames, start, settle, i, ReadFailed) <==> frames[i].reading == Broken
    ensures forall v | Stops(frames, start, settle, i, v) ::
              v.Ready? || v.Emptied? || v.Replaced? || v.Refuse? || v.ReadFailed?
  {
    forall j | 0 <= j <= i
      ensures Window(frames, j, i, AnyEmpty, settle) <==>
              frames[i].at - frames[j].at >= settle && forall k | j <= k <= i :: frames[k].reading == ReadEmpty
      ensures Window(frames, j, i, AnyOther, Max(settle, COMPOSER_FRAME)) <==>
              && frames[i].at - frames[j].at >= settle && frames[i].at - frames[j].at >= 25
              && forall k | j <= k <= i :: frames[k].reading == OtherText
      ensures Window(frames, j, i, AnyRefusal, Max(settle, COMPOSER_FRAME)) <==>
              && frames[i].at - frames[j].at >= settle && frames[i].at - frames[j].at >= 25
              && forall k | j <= k <= i :: frames[k].reading.Refused?
    {
    }
  }

  /** A refusal or other text is never acted on from one frame, not even with no settle time. */
  lemma SpansTwoFrames(frames: seq<Frame>, start: Time, settle: Time, i: nat, v: Verdict)
    requires i < |frames| && Stops(frames, start, settle, i, v) && (v.Replaced? || v.Refuse?)
    ensures i > 0 && Is(if v.Replaced? then AnyOther else AnyRefusal, frames[i - 1].reading)
  {
    var kind := if v.Replaced? then AnyOther else AnyRefusal;
    var j :| Window(frames, j, i, kind, Max(settle, COMPOSER_FRAME));
    assert Is(kind, frames[i - 1].reading);
  }

  /** A refusal held back until it lasts. */
  class HeldRefusal {
    var refusal: Option<Refusal>
    var since: Time

    constructor ()
      ensures refusal == None
    {
      refusal, since := None, 0;
    }

    /** The refusal of the frame before `n`, and when its run of refusals started. */
    ghost predicate Tracks(frames: seq<Frame>, n: nat)
      requires n <= |frames|
      reads this
    {
      && Since(frames, n, AnyRefusal) == (if refusal.Some? then Some(since) else None)
      && (refusal.Some? ==> n > 0 && frames[n - 1].reading == Refused(refusal.value))
      && (refusal.None? ==> n == 0 || !frames[n - 1].reading.Refused?)
    }

    method Held(f: Frame, settle: Time, ghost frames: seq<Frame>, ghost i: nat) returns (held: Option<Refusal>)
      requires i < |frames| && frames[i] == f && Tracks(frames, i)
      modifies this
      ensures Tracks(frames, i + 1)
      ensures held == if f.reading.Refused? && Lasted(frames, i, AnyRefusal) >= Max(settle, COMPOSER_FRAME)
                      then Some(f.reading.why) else None
    {
      hide Since;
      SinceNext(frames, i, AnyRefusal);
      if !f.reading.Refused? {
        refusal, since := None, 0;
        return None;
      }
      if refusal.None? {
        since := f.at;
      }
      refusal := Some(f.reading.why);
      held := if f.at - since >= Max(settle, COMPOSER_FRAME) then refusal else None;
    }
  }

  /** The wait stops at the first frame where a verdict is due, with that verdict; when none is, the
      deadline's verdict stands. */
  method AwaitPasteShown(frames: seq<Frame>, end: End, start: Time, settle: Time) returns (verdict: Verdict, n: nat)
    requires Nondecreasing(frames, start)
    ensures n <= |frames| && forall i | 0 <= i < n :: GoesOn(frames, start, settle, i)
    ensures n < |frames| ==> Stops(frames, start, settle, n, verdict)
    ensures n == |frames| ==> verdict == AtEnd(frames, end)
    ensures n == |frames| ==> (verdict == ExpiredReplaced <==> end.Deadline? && OtherTextLast(frames))
    ensures n == |frames| ==> (verdict.ExpiredRefused? <==>
      end.Deadline? && !OtherTextLast(frames) && frames != [] && frames[|frames| - 1].reading.Refused?)
  {
    hide Stops, GoesOn, Nondecreasing, Painted, Since, OtherTextLast;
    var painted, replaced := false, false;
    var emptySince: Option<Time>, replacedSince: Option<Time> := None, None;
    var refused := new HeldRefusal();
    n := 0;
    AtStart(frames);
    AtEndMeans(frames, end);
    while n < |frames|
      invariant n <= |frames| && fresh(refused) && refused.Tracks(frames, n)
      invariant forall i | 0 <= i < n :: GoesOn(frames, start, settle, i)
      invariant painted <==> Painted(frames, n)
      invariant replaced <==> LastRead(frames, n) == Some(OtherText)
      invariant emptySince == if painted then Since(frames, n, AnyEmpty) else None
      invariant replacedSince == Since(frames, n, AnyOther)
    {
      var now, view := frames[n].at, frames[n].reading;
      GoesOnIffNoneDue(frames, start, settle, n);
      PaintedNext(frames, n);
      SinceNext(frames, n, AnyEmpty);
      SinceNext(frames, n, AnyOther);
      var held := refused.Held(frames[n], settle, frames, n);
      if held.Some? {
        StopsIffDue(frames, start, settle, n, Refuse(held.value));
        return Refuse(held.value), n;
      }
      if view.Broken? {
        StopsIffDue(frames, start, settle, n, ReadFailed);
        return ReadFailed, n;
      }
      if !view.ReadEmpty? {
        emptySince := None;
      }
      if !view.OtherText? {
        replacedSince := None;
      }
      if view.PasteShown? || view.ReadEmpty? {
        replaced := false;
      }
      match view {
      case PasteShown =>
        if now - start >= settle {
          StopsIffDue(frames, start, settle, n, Ready);
          return Ready, n;
        }
        painted := true;
      case ReadEmpty =>
        if painted && emptySince.None? {
          emptySince := Some(now);
        }
        if painted && now - emptySince.value >= settle {
          StopsIffDue(frames, start, settle, n, Emptied);
          return Emptied, n;
        }
      case OtherText =>
        replaced := true;
        if replacedSince.None? {
          replacedSince := Some(now);
        }
        if now - replacedSince.value >= Max(settle, COMPOSER_FRAME) {
          StopsIffDue(frames, start, settle, n, Replaced);
          return Replaced, n;
        }
      case _ =>
      }
      n := n + 1;
    }
    verdict := if end.CaptureFailed? then NoCapture
               else if replaced then ExpiredReplaced
               else if refused.refusal.Some? then ExpiredRefused(refused.refusal.value) else Expired;
  }

  lemma AtStart(frames: seq<Frame>)
    ensures !Painted(frames, 0) && forall kind :: Since(frames, 0, kind) == None
  {
  }

  lemma PaintedNext(frames: seq<Frame>, n: nat)
    requires n < |frames|
    ensures Painted(frames, n + 1) <==> Painted(frames, n) || frames[n].reading.PasteShown?
  {
  }
}
