/** Whether a transcript records that a turn and every turn after it ended
    (harness/turn_close.go, harness/queued.go). */
module TurnClose {
  import opened Records

  datatype Operation = Enqueue | Remove | Dequeue | PopAll | OtherOperation

  datatype Source = Queued | Typed | Unstated | OtherSource

  datatype Kind =
    | QueueOperation(operation: Operation)
    | TurnDuration
    | User(prompt: string, source: Source, meta: bool, summary: bool, interrupt: bool)
    | OtherKind

  /** One transcript record, in the order of the timestamps. */
  datatype Record = Record(at: Time, sidechain: bool, kind: Kind)

  datatype Close = Close(at: Time, interrupted: bool)

  /** What one record does to a counter that never falls below zero. */
  datatype Move = Up | Down | Reset | Stay

  function Counted(n: nat, m: Move): nat {
    match m
    case Up => n + 1
    case Down => if n > 0 then n - 1 else 0
    case Reset => 0
    case Stay => n
  }

  function Count(moves: seq<Move>): nat {
    if moves == [] then 0 else Counted(Count(moves[..|moves| - 1]), moves[|moves| - 1])
  }

  /** What the moves would add up to if nothing were clamped or reset. */
  function Sum(moves: seq<Move>): int {
    if moves == [] then 0
    else
      Sum(moves[..|moves| - 1]) + match moves[|moves| - 1] { case Up => 1 case Down => -1 case _ => 0 }
  }

  ghost predicate Reaches(moves: seq<Move>, k: nat, n: nat) {
    k <= |moves| && Reset !in moves[k..] && Sum(moves[k..]) >= n
  }

  /** A clamped counter stands at the largest sum of any stretch that ends now and holds no reset. */
  lemma {:induction false} CountIsPeak(moves: seq<Move>, n: nat)
    requires n > 0
    ensures Count(moves) >= n <==> exists k :: Reaches(moves, k, n)
  {
    if moves == [] {
    } else {
      var rest, last := moves[..|moves| - 1], moves[|moves| - 1];
      var before := match last { case Up => n - 1 case Down => n + 1 case _ => n };
      forall k: nat | k <= |rest| ensures Reaches(moves, k, n) <==> !last.Reset? && Reaches(rest, k, before) {
        assert moves[k..] == rest[k..] + [last];
        assert moves[k..][..|moves[k..]| - 1] == rest[k..];
      }
      if before > 0 {
        CountIsPeak(rest, before);
        assert Count(moves) >= n <==> !last.Reset? && Count(rest) >= before;
        if k: nat :| Reaches(rest, k, before) {
          assert last.Reset? || Reaches(moves, k, n);
        }
      } else {
        assert rest[|rest|..] == [];
        assert Reaches(rest, |rest|, 0);
        assert Reaches(moves, |rest|, n);
      }
    }
  }

  predicate Plays(r: Record) {
    !r.sidechain
  }

  predicate Ends(r: Record) {
    Plays(r) && r.kind.TurnDuration?
  }

  predicate Dequeues(r: Record) {
    Plays(r) && r.kind == QueueOperation(Dequeue)
  }

  /** A user record of the conversation, not one of the harness's own. */
  predicate Ordinary(r: Record) {
    Plays(r) && r.kind.User? && !r.kind.meta && !r.kind.summary
  }

  predicate Starts(r: Record) {
    Ordinary(r) && r.kind.prompt != ""
  }

  /** The record is the first to start its prompt. */
  predicate FirstStart(rs: seq<Record>, i: nat)
    requires i < |rs|
  {
    Starts(rs[i]) && forall j | 0 <= j < i :: Starts(rs[j]) ==> rs[j].kind.prompt != rs[i].kind.prompt
  }

  /** A turn end is recorded before `n`, and no prompt started after it. */
  ghost predicate Ended(rs: seq<Record>, n: nat)
    requires n <= |rs|
  {
    exists i | 0 <= i < n :: Ends(rs[i]) && forall k | i < k < n :: !FirstStart(rs, k)
  }

  ghost predicate TypedAfterEnd(rs: seq<Record>, i: nat)
    requires i < |rs|
  {
    FirstStart(rs, i) && (rs[i].kind.source.Typed? || rs[i].kind.source.Unstated?) && Ended(rs, i)
  }

  /** Dequeue records that no prompt run from the queue has matched yet. */
  ghost function ClaimMove(rs: seq<Record>, i: nat): Move
    requires i < |rs|
  {
    if Dequeues(rs[i]) then Up
    else if FirstStart(rs, i) && rs[i].kind.source.Queued? then Down
    else if TypedAfterEnd(rs, i) then Reset
    else Stay
  }

  ghost function ClaimMoves(rs: seq<Record>, n: nat): seq<Move>
    requires n <= |rs|
  {
    seq(n, i requires 0 <= i < n => ClaimMove(rs, i))
  }

  ghost predicate Claimed(rs: seq<Record>, n: nat)
    requires n <= |rs|
  {
    exists k :: Reaches(ClaimMoves(rs, n), k, 1)
  }

  /** Prompts waiting in the queue: a prompt run from it without a dequeue record leaves it itself. */
  ghost function QueueMove(rs: seq<Record>, i: nat): Move
    requires i < |rs|
  {
    var r := rs[i];
    if Plays(r) && r.kind.QueueOperation? then
      match r.kind.operation
      case Enqueue => Up
      case Remove => Down
      case Dequeue => Down
      case PopAll => Reset
      case OtherOperation => Stay
    else if FirstStart(rs, i) && r.kind.source.Queued? && !Claimed(rs, i) then Down
    else if TypedAfterEnd(rs, i) then Reset
    else Stay
  }

  ghost function QueueMoves(rs: seq<Record>, n: nat): seq<Move>
    requires n <= |rs|
  {
    seq(n, i requires 0 <= i < n => QueueMove(rs, i))
  }

  ghost predicate Waiting(rs: seq<Record>, n: nat)
    requires n <= |rs|
  {
    exists k :: Reaches(QueueMoves(rs, n), k, 1)
  }

  /** When the last prompt before `n` started, and when the last dequeue before `n` was recorded. */
  ghost function StartedAt(rs: seq<Record>, n: nat): Time
    requires n <= |rs|
  {
    if n == 0 then 0 else if FirstStart(rs, n - 1) then rs[n - 1].at else StartedAt(rs, n - 1)
  }

  function DequeuedAt(rs: seq<Record>, n: nat): Time
    requires n <= |rs|
  {
    if n == 0 then 0 else if Dequeues(rs[n - 1]) then rs[n - 1].at else DequeuedAt(rs, n - 1)
  }

  /** The last ordinary user record before `n` is the note of an interrupt. */
  function Interrupted(rs: seq<Record>, n: nat): bool
    requires n <= |rs|
  {
    n > 0 && if Ordinary(rs[n - 1]) then rs[n - 1].kind.interrupt else Interrupted(rs, n - 1)
  }

  /** The last turn end before `n`. */
  function LastEnd(rs: seq<Record>, n: nat): Close
    requires n <= |rs|
  {
    if n == 0 then Close(0, false)
    else if Ends(rs[n - 1]) then Close(rs[n - 1].at, Interrupted(rs, n - 1))
    else LastEnd(rs, n - 1)
  }

  /** The turn started, no prompt started after the last end, no prompt waits, and none left the
      queue after the last start. */
  ghost predicate Closed(rs: seq<Record>, turn: string) {
    && (exists i | 0 <= i < |rs| :: Starts(rs[i]) && rs[i].kind.prompt == turn)
    && Ended(rs, |rs|) && !Waiting(rs, |rs|) && DequeuedAt(rs, |rs|) <= StartedAt(rs, |rs|)
  }

  /** The loop's counters after `n` records. */
  ghost predicate Counters(rs: seq<Record>, n: nat, claims: nat, queued: nat)
    requires n <= |rs|
  {
    claims == Count(ClaimMoves(rs, n)) && queued == Count(QueueMoves(rs, n))
  }

  lemma CountersMean(rs: seq<Record>, n: nat, claims: nat, queued: nat)
    requires n <= |rs| && Counters(rs, n, claims, queued)
    ensures (claims > 0 <==> Claimed(rs, n)) && (queued > 0 <==> Waiting(rs, n))
  {
    CountIsPeak(ClaimMoves(rs, n), 1);
    CountIsPeak(QueueMoves(rs, n), 1);
  }

  lemma CountersNext(rs: seq<Record>, n: nat, claims: nat, queued: nat)
    requires n < |rs| && Counters(rs, n, claims, queued)
    ensures Counters(rs, n + 1, Counted(claims, ClaimMove(rs, n)), Counted(queued, QueueMove(rs, n)))
  {
    hide ClaimMove, QueueMove;
    assert ClaimMoves(rs, n + 1)[..n] == ClaimMoves(rs, n);
    assert QueueMoves(rs, n + 1)[..n] == QueueMoves(rs, n);
  }

  lemma EndedNext(rs: seq<Record>, n: nat)
    requires n < |rs|
    ensures Ended(rs, n + 1) <==> Ends(rs[n]) || (Ended(rs, n) && !FirstStart(rs, n))
  {
    hide FirstStart, Ends;
    if Ended(rs, n) && !FirstStart(rs, n) {
      var i :| 0 <= i < n && Ends(rs[i]) && forall k | i < k < n :: !FirstStart(rs, k);
    }
  }

  ghost predicate Prompts(rs: seq<Record>, n: nat, prompts: set<string>)
    requires n <= |rs|
  {
    forall p :: p in prompts <==> exists i | 0 <= i < n :: Starts(rs[i]) && rs[i].kind.prompt == p
  }

  lemma PromptsNext(rs: seq<Record>, n: nat, prompts: set<string>)
    requires n < |rs| && Prompts(rs, n, prompts)
    ensures FirstStart(rs, n) <==> Starts(rs[n]) && rs[n].kind.prompt !in prompts
    ensures Prompts(rs, n + 1, if Starts(rs[n]) then prompts + {rs[n].kind.prompt} else prompts)
  {
    var p := if Starts(rs[n]) then rs[n].kind.prompt else "";
    if Starts(rs[n]) && p !in prompts {
      forall j | 0 <= j < n && Starts(rs[j]) ensures rs[j].kind.prompt != p {
        assert rs[j].kind.prompt in prompts;
      }
    }
  }

  /** The replay over all records agrees with what the records say. */
  method TurnClosed(rs: seq<Record>, turn: string) returns (r: Option<Close>)
    ensures r == if Closed(rs, turn) then Some(LastEnd(rs, |rs|)) else None
  {
    hide Counters, Prompts, Ended, FirstStart, Claimed, Waiting;
    var queued: nat, claims: nat := 0, 0;
    var dequeued: Time, started: Time := 0, 0;
    var seen, ended, interrupted := false, false, false;
    var closed := Close(0, false);
    var prompts: set<string> := {};
    ReplayStarts(rs);
    var n := 0;
    while n < |rs|
      invariant n <= |rs| && Counters(rs, n, claims, queued) && Prompts(rs, n, prompts)
      invariant (seen <==> turn in prompts) && (ended <==> Ended(rs, n))
      invariant interrupted == Interrupted(rs, n) && closed == LastEnd(rs, n)
      invariant dequeued == DequeuedAt(rs, n) && started == StartedAt(rs, n)
    {
      var x := rs[n];
      CountersMean(rs, n, claims, queued);
      CountersNext(rs, n, claims, queued);
      EndedNext(rs, n);
      PromptsNext(rs, n, prompts);
      n := n + 1;
      if x.sidechain {
        continue;
      }
      match x.kind {
        case QueueOperation(operation) =>
          match operation {
            case Enqueue =>
              queued := queued + 1;
            case Remove =>
              queued := if queued > 0 then queued - 1 else 0;
            case Dequeue =>
              queued := if queued > 0 then queued - 1 else 0;
              dequeued := x.at;
              claims := claims + 1;
            case PopAll =>
              queued := 0;
            case OtherOperation =>
          }
        case TurnDuration =>
          ended, closed := true, Close(x.at, interrupted);
        case User(prompt, source, meta, summary, interrupt) =>
          if meta || summary {
            continue;
          }
          interrupted := interrupt;
          if prompt == "" || prompt in prompts {
            assert prompt != "" ==> prompts + {prompt} == prompts;
            continue;
          }
          seen := seen || prompt == turn;
          prompts, started := prompts + {prompt}, x.at;
          if source.Queued? && claims > 0 {
            claims := claims - 1;
          } else if source.Queued? {
            queued := if queued > 0 then queued - 1 else 0;
          } else if ended && (source.Unstated? || source.Typed?) {
            queued, claims := 0, 0;
          }
          ended := false;
        case OtherKind =>
      }
    }
    CountersMean(rs, n, claims, queued);
    SeenMeans(rs, turn, prompts);
    if !seen || !ended || queued > 0 || dequeued > started {
      return None;
    }
    return Some(closed);
  }

  lemma ReplayStarts(rs: seq<Record>)
    ensures Counters(rs, 0, 0, 0) && Prompts(rs, 0, {}) && !Ended(rs, 0)
  {
  }

  lemma SeenMeans(rs: seq<Record>, turn: string, prompts: set<string>)
    requires Prompts(rs, |rs|, prompts)
    ensures turn in prompts <==> exists i | 0 <= i < |rs| :: Starts(rs[i]) && rs[i].kind.prompt == turn
  {
  }

  /** The record shows a prompt of the conversation. */
  predicate Shows(r: Record) {
    !r.sidechain && r.kind.User? && !r.kind.meta && !r.kind.summary && r.kind.prompt != ""
  }

  /** What each record does to the two counters, in its own fields: an enqueue adds a waiting prompt; a
      removal or a dequeue takes one, and a dequeue leaves a claim; popping everything empties the
      queue; the first record of a prompt run from the queue uses a claim, or takes a waiting prompt
      when there is none; and a prompt typed after the turn ended empties both. */
  lemma MovesMean(rs: seq<Record>, i: nat)
    requires i < |rs|
    ensures var r := rs[i];
            var starts := Shows(r) && forall j | 0 <= j < i :: Shows(rs[j]) ==> rs[j].kind.prompt != r.kind.prompt;
            var typed := starts && (r.kind.source.Typed? || r.kind.source.Unstated?) && Ended(rs, i);
            && (FirstStart(rs, i) <==> starts)
            && ClaimMove(rs, i) == (if !r.sidechain && r.kind == QueueOperation(Dequeue) then Up
                                    else if starts && r.kind.source.Queued? then Down
                                    else if typed then Reset else Stay)
            && QueueMove(rs, i) == (if !r.sidechain && r.kind == QueueOperation(Enqueue) then Up
                                    else if !r.sidechain && r.kind == QueueOperation(Remove) then Down
                                    else if !r.sidechain && r.kind == QueueOperation(Dequeue) then Down
                                    else if !r.sidechain && r.kind == QueueOperation(PopAll) then Reset
                                    else if starts && r.kind.source.Queued? && !Claimed(rs, i) then Down
                                    else if typed then Reset else Stay)
  {
    hide Ended, Claimed;
  }

  lemma {:induction false} NoneAdded(moves: seq<Move>)
    requires Up !in moves
    ensures Sum(moves) <= 0
  {
    if moves != [] {
      NoneAdded(moves[..|moves| - 1]);
    }
  }

  lemma NeverReaches(moves: seq<Move>)
    requires Up !in moves
    ensures forall k :: !Reaches(moves, k, 1)
  {
    forall k: nat | k <= |moves| ensures Sum(moves[k..]) <= 0 {
      NoneAdded(moves[k..]);
    }
  }

  /** A transcript whose queue was never used: the turn is closed exactly when its prompt is there and
      a turn end is recorded that no new prompt follows. */
  lemma PlainlyClosed(rs: seq<Record>, turn: string)
    requires forall i | 0 <= i < |rs| :: !rs[i].sidechain ==> !rs[i].kind.QueueOperation?
    ensures Closed(rs, turn) <==>
            && (exists i | 0 <= i < |rs| :: Shows(rs[i]) && rs[i].kind.prompt == turn)
            && exists e | 0 <= e < |rs| ::
                 && !rs[e].sidechain && rs[e].kind == TurnDuration
                 && forall k | e < k < |rs| ::
                      Shows(rs[k]) ==> exists j | 0 <= j < k :: Shows(rs[j]) && rs[j].kind.prompt == rs[k].kind.prompt
  {
    NeverWaits(rs);
    EndedMeans(rs);
    hide Ended, Waiting, DequeuedAt, StartedAt, Reaches;
  }

  lemma NeverWaits(rs: seq<Record>)
    requires forall i | 0 <= i < |rs| :: !rs[i].sidechain ==> !rs[i].kind.QueueOperation?
    ensures !Waiting(rs, |rs|) && DequeuedAt(rs, |rs|) == 0
  {
    forall i | 0 <= i < |rs| ensures QueueMove(rs, i) != Up {
      MovesMean(rs, i);
    }
    NeverReaches(QueueMoves(rs, |rs|));
    NeverDequeued(rs, |rs|);
  }

  lemma EndedMeans(rs: seq<Record>)
    ensures Ended(rs, |rs|) <==>
            exists e | 0 <= e < |rs| ::
              && !rs[e].sidechain && rs[e].kind == TurnDuration
              && forall k | e < k < |rs| ::
                   Shows(rs[k]) ==> exists j | 0 <= j < k :: Shows(rs[j]) && rs[j].kind.prompt == rs[k].kind.prompt
  {
    forall k | 0 <= k < |rs|
      ensures FirstStart(rs, k) <==>
              !(Shows(rs[k]) ==> exists j | 0 <= j < k :: Shows(rs[j]) && rs[j].kind.prompt == rs[k].kind.prompt)
    {
    }
    hide FirstStart, Shows;
  }

  lemma {:induction false} NeverDequeued(rs: seq<Record>, n: nat)
    requires n <= |rs| && forall i | 0 <= i < |rs| :: !rs[i].sidechain ==> !rs[i].kind.QueueOperation?
    ensures DequeuedAt(rs, n) == 0
  {
    if n > 0 {
      NeverDequeued(rs, n - 1);
    }
  }

  /** The close that is reported: the time of the last turn end, marked interrupted exactly when the
      last user record of the conversation before it is the note of an interrupt. */
  lemma {:induction false} LastEndMeans(rs: seq<Record>, n: nat, e: nat)
    requires e < n <= |rs| && !rs[e].sidechain && rs[e].kind == TurnDuration
    requires forall i | e < i < n :: rs[i].sidechain || rs[i].kind != TurnDuration
    ensures LastEnd(rs, n) == Close(rs[e].at, Interrupted(rs, e))
    ensures Interrupted(rs, e) <==>
            exists j | 0 <= j < e ::
              && !rs[j].sidechain && rs[j].kind.User? && !rs[j].kind.meta && !rs[j].kind.summary && rs[j].kind.interrupt
              && forall k | j < k < e ::
                   !(!rs[k].sidechain && rs[k].kind.User? && !rs[k].kind.meta && !rs[k].kind.summary)
  {
    InterruptedMeans(rs, e);
    hide Interrupted;
    if e < n - 1 {
      LastEndMeans(rs, n - 1, e);
    }
  }

  lemma {:induction false} InterruptedMeans(rs: seq<Record>, e: nat)
    requires e <= |rs|
    ensures Interrupted(rs, e) <==>
            exists j | 0 <= j < e ::
              && !rs[j].sidechain && rs[j].kind.User? && !rs[j].kind.meta && !rs[j].kind.summary && rs[j].kind.interrupt
              && forall k | j < k < e ::
                   !(!rs[k].sidechain && rs[k].kind.User? && !rs[k].kind.meta && !rs[k].kind.summary)
  {
    if e > 0 {
      InterruptedMeans(rs, e - 1);
      assert Interrupted(rs, e) == if Ordinary(rs[e - 1]) then rs[e - 1].kind.interrupt else Interrupted(rs, e - 1);
    }
  }

  ghost predicate Ordered(rs: seq<Record>) {
    forall i, j | 0 <= i <= j < |rs| :: rs[i].at <= rs[j].at
  }

  lemma {:induction false} LastIsLatest(rs: seq<Record>, n: nat, i: nat)
    requires Ordered(rs) && i < n <= |rs|
    ensures FirstStart(rs, i) ==> rs[i].at <= StartedAt(rs, n)
    ensures Dequeues(rs[i]) ==> rs[i].at <= DequeuedAt(rs, n)
    ensures Ends(rs[i]) ==> rs[i].at <= LastEnd(rs, n).at
    decreases n
  {
    hide FirstStart, Dequeues, Ends;
    if i < n - 1 {
      LastIsLatest(rs, n - 1, i);
      LastWasRecorded(rs, n - 1);
    }
  }

  lemma {:induction false} LastWasRecorded(rs: seq<Record>, n: nat)
    requires Ordered(rs) && n <= |rs|
    ensures n > 0 ==> StartedAt(rs, n) <= rs[n - 1].at && DequeuedAt(rs, n) <= rs[n - 1].at && LastEnd(rs, n).at <= rs[n - 1].at
  {
    hide FirstStart, Dequeues, Ends;
    if n > 0 {
      LastWasRecorded(rs, n - 1);
    }
  }

  /** In a transcript ordered by time, no prompt starts and none leaves the queue after the end a
      closed turn reports. */
  lemma ClosedIsLast(rs: seq<Record>, turn: string, i: nat)
    requires Ordered(rs) && Closed(rs, turn) && i < |rs|
    ensures FirstStart(rs, i) || Dequeues(rs[i]) ==> rs[i].at <= LastEnd(rs, |rs|).at
  {
    hide FirstStart, Dequeues, Ends, Waiting;
    var e :| 0 <= e < |rs| && Ends(rs[e]) && forall k | e < k < |rs| :: !FirstStart(rs, k);
    LastIsLatest(rs, |rs|, i);
    LastIsLatest(rs, |rs|, e);
    StartsBefore(rs, |rs|, e);
  }

  lemma {:induction false} StartsBefore(rs: seq<Record>, n: nat, e: nat)
    requires Ordered(rs) && e < n <= |rs| && forall k | e < k < n :: !FirstStart(rs, k)
    ensures StartedAt(rs, n) <= rs[e].at
  {
    hide FirstStart;
    if n == e + 1 {
      LastWasRecorded(rs, n);
    } else {
      StartsBefore(rs, n - 1, e);
    }
  }
}
