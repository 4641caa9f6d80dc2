/** The transition function on the agent record (core/step.go), the retry delay it uses, and
    what the two promise: which fields a transition leaves alone, exactly which events lead a
    compaction out of its failed state, and that a deadline check is settled by one application. */
module AgentStep {
  import opened Records

  const FIRST_RETRY := 100
  const LAST_RETRY := 30000

  datatype Event =
    | HitchSpawned(pane: string)
    | HitchReady
    | HitchBlocked(reason: string)
    | BootReopened(deadline: Time)
    | HitchFailed(reason: string)
    | ActivityObserved(activity: Activity, reason: string)
    | InputStarted(intent: Intent)
    | InputFinished(intent: Intent, outcome: string, reason: string)
    | CompactionRequested(request: Option<Compaction>)
    | CompactionWaiting(compaction: nat, reason: string)
    | CompactionCancelled(compaction: nat)
    | CompactionSubmitted(compaction: nat)
    | CompactionCompleted(compaction: nat)
    | CompactionHasFailed(compaction: nat, reason: string)
    | CompactionUnconfirmed(compaction: nat, reason: string, recovery: bool)
    | InterruptRequested(deadline: Time)
    | InterruptCompleted
    | DropStarted
    | CapacityDetected(fingerprint: string, reason: string, deadline: Time)
    | CapacitySubmitted
    | CapacityCleared
    | DeadlineChecked
    | Recorded

  datatype Stepped = Stepped(agent: Agent) | Rejected(reason: string)

  predicate Current(a: Agent, compaction: nat) {
    a.compaction.Some? && a.compaction.value.id == compaction
  }

  function WithStatus(a: Agent, status: CompactionStatus, reason: string): Agent
    requires a.compaction.Some?
  {
    a.(compaction := Some(a.compaction.value.(status := status, reason := reason)))
  }

  predicate PendingRequest(c: Compaction) {
    c.status == Queued || c.status == Submitted || (c.status == Completed && !c.continuation)
  }

  /** The fields an event assigns, before the change time is stamped; `None` when the event
      returns the record as it was. */
  function Assign(a: Agent, at: Time, e: Event): Option<Agent> {
    match e
    case HitchSpawned(pane) => Some(a.(pane := pane, status := Booting))
    case HitchReady => Some(a.(status := Active, activity := Idle, bootDeadline := 0))
    case HitchBlocked(reason) =>
      Some(a.(promptNoticedAt := 0, activity := Blocked, evidence := reason, bootDeadline := 0))
    case BootReopened(deadline) =>
      Some(a.(status := Booting, activity := Unknown, evidence := "", bootDeadline := deadline))
    case HitchFailed(reason) => Some(a.(status := AgentFailed, activity := Unknown, evidence := reason))
    case ActivityObserved(activity, reason) =>
      Some(if a.status == Active then a.(activity := activity, evidence := reason) else a)
    case InputStarted(intent) => Some(a.(input := Some(intent)))
    case InputFinished(_, outcome, reason) =>
      var done := a.(input := None);
      Some(if outcome == "delivered" then done.(activity := Busy, submittedAt := at)
           else if outcome == "accepted" then done.(activity := Busy, evidence := reason)
           else if outcome == "unverified" then
             done.(activity := Unknown, evidence := "input submission unverified: " + reason)
           else done)
    case CompactionRequested(request) => Some(a.(compaction := request))
    case CompactionWaiting(c, reason) =>
      if Current(a, c) && a.compaction.value.status == Queued
      then Some(WithStatus(a, Queued, reason)) else None
    case CompactionCancelled(c) =>
      Some(if Current(a, c) && a.compaction.value.status == Queued then a.(compaction := None) else a)
    case CompactionSubmitted(c) =>
      if Current(a, c)
      then Some(WithStatus(a, Submitted, a.compaction.value.reason).(activity := Compacting, input := None))
      else None
    case CompactionCompleted(c) =>
      if Current(a, c) then Some(WithStatus(a, Completed, "").(activity := Idle, evidence := "")) else None
    case CompactionHasFailed(c, reason) =>
      if Current(a, c)
      then Some(WithStatus(a, CompactionFailed, reason).(activity := Unknown, evidence := reason, input := None))
      else None
    case CompactionUnconfirmed(c, reason, recovery) =>
      if Current(a, c) then
        var next := WithStatus(a, CompactionUnverified, reason).(activity := Unknown, evidence := reason, input := None);
        Some(if recovery then next.(compaction := Some(next.compaction.value.(recovered := true))) else next)
      else None
    case InterruptRequested(deadline) =>
      var first := if a.interruptAt == 0 || at >= a.interruptDeadline then at else a.interruptAt;
      Some(a.(activity := Interrupting, interruptDeadline := deadline, interruptAt := first))
    case InterruptCompleted =>
      var idle := a.(activity := Idle, interruptDeadline := 0, interruptAt := 0);
      Some(if at > a.finishedAt then idle.(finishedAt := at) else idle)
    case DropStarted => Some(a.(status := Dropping))
    case CapacityDetected(fingerprint, reason, deadline) => Some(CapacityNoted(a, at, fingerprint, reason, deadline))
    case CapacitySubmitted =>
      Some(a.(capacity := a.capacity.(submitted := true, attempts := a.capacity.attempts + 1)))
    case CapacityCleared => Some(a.(capacity := NO_CAPACITY))
    case DeadlineChecked => if a.status == Dropping then None else Some(CheckDeadlines(a, at))
    case Recorded => None
  }

  /** Continuation envelopes of capacity recovery are outside the model, so the last failed receipt
      is never one of them. */
  function CapacityNoted(a: Agent, at: Time, fingerprint: string, reason: string, deadline: Time): Agent {
    var noted :=
      if a.capacity.fingerprint != fingerprint then
        a.(capacity := a.capacity.(
          deadline := if a.capacity.deadline == 0 then deadline else a.capacity.deadline,
          fingerprint := fingerprint, evidence := reason, nextAt := at + Bounded(Doubled(a.capacity.attempts)), submitted := false))
      else a;
    if at >= noted.capacity.deadline
    then noted.(activity := Wedged, evidence := "provider capacity recovery deadline elapsed")
    else noted
  }

  function CheckDeadlines(a: Agent, at: Time): Agent {
    var boot :=
      if a.bootDeadline != 0 && at >= a.bootDeadline && (a.status == Starting || a.status == Booting)
      then a.(status := AgentFailed, evidence := "boot deadline elapsed") else a;
    var interrupt :=
      if boot.activity == Interrupting && boot.interruptDeadline != 0 && at >= boot.interruptDeadline
      then boot.(activity := Wedged, evidence := "interrupt deadline elapsed") else boot;
    if interrupt.compaction.Some? && interrupt.compaction.value.status == Submitted
       && at >= interrupt.compaction.value.deadline
    then WithStatus(interrupt, CompactionUnverified, UNCONFIRMED).(activity := Unknown, evidence := UNCONFIRMED)
    else interrupt
  }

  const UNCONFIRMED := "native compaction completion unconfirmed; queued continuation may run"

  /** The two intents have the same ID: a compaction and its recovery share theirs. */
  predicate SameInput(i: Intent, j: Intent) {
    match i
    case EnvelopeInput(id) => j == i
    case InterruptInput(key) => j == i
    case CompactionInput(c) => j == i || j == RecoveryInput(c)
    case RecoveryInput(c) => j == i || j == CompactionInput(c)
  }

  function Refusal(a: Agent, hitch: nat, at: Time, e: Event): Option<string> {
    if hitch != a.id || at == 0 then Some("event does not identify this agent and its time")
    else match e
      case BootReopened(deadline) =>
        if a.status != AgentFailed || a.evidence != "boot deadline elapsed" || deadline == 0
        then Some("only an agent failed by its boot deadline can resume startup") else None
      case InputStarted(_) => if a.input.Some? then Some("input already in progress") else None
      case InputFinished(intent, _, _) =>
        if a.input.None? || !SameInput(a.input.value, intent) then Some("input result has no matching intent") else None
      case CompactionRequested(request) =>
        if a.compaction.Some? && PendingRequest(a.compaction.value) then Some("compaction already pending")
        else if request.None? then Some("compaction is required") else None
      case _ => None
  }

  function Step(a: Agent, hitch: nat, at: Time, e: Event): Stepped {
    var refusal := Refusal(a, hitch, at, e);
    if refusal.Some? then Rejected(refusal.value)
    else match Assign(a, at, e)
      case None => Stepped(a)
      case Some(next) => Stepped(next.(changedAt := at))
  }

  predicate FailedCompaction(a: Agent, c: nat) {
    Current(a, c) && a.compaction.value.status == CompactionFailed
  }

  lemma DeadlinesKeep(a: Agent, at: Time)
    ensures var b := CheckDeadlines(a, at);
            b == a.(status := b.status, activity := b.activity, evidence := b.evidence, compaction := b.compaction)
  {
  }

  lemma AssignKeeps(a: Agent, at: Time, e: Event)
    requires Assign(a, at, e).Some?
    ensures var b := Assign(a, at, e).value;
            && b.id == a.id && b.name == a.name && b.bands == a.bands && b.cleanup == a.cleanup
            && b.lastAccepted == a.lastAccepted && b.lastDelivered == a.lastDelivered && b.lastFailed == a.lastFailed
  {
    hide CheckDeadlines, Doubled, Bounded, Current;
    DeadlinesKeep(a, at);
  }

  /** The receipts, the pending cleanup, the queued notes and the identity belong to the store:
      no transition changes them. */
  lemma StepKeepsReceipts(a: Agent, hitch: nat, at: Time, e: Event)
    requires Step(a, hitch, at, e).Stepped?
    ensures var b := Step(a, hitch, at, e).agent;
            && b.id == a.id && b.name == a.name && b.bands == a.bands && b.cleanup == a.cleanup
            && b.lastAccepted == a.lastAccepted && b.lastDelivered == a.lastDelivered && b.lastFailed == a.lastFailed
  {
    hide Assign, Refusal;
    if Assign(a, at, e).Some? {
      AssignKeeps(a, at, e);
    }
  }

  /** The transition function alone does let a failed compaction go on: exactly the submitted,
      completed and unconfirmed events of that compaction do it. Their callers withhold them. */
  lemma LeavesFailedIff(a: Agent, hitch: nat, at: Time, e: Event, c: nat)
    requires FailedCompaction(a, c)
    requires Step(a, hitch, at, e).Stepped?
    requires e.CompactionRequested? ==> e.request.value.id != c
    ensures Current(Step(a, hitch, at, e).agent, c) && !FailedCompaction(Step(a, hitch, at, e).agent, c)
        <==> (e == CompactionSubmitted(c) || e == CompactionCompleted(c) ||
              (e.CompactionUnconfirmed? && e.compaction == c))
  {
  }

  /** Which events an agent refuses. */
  lemma RefusedIff(a: Agent, hitch: nat, at: Time, e: Event)
    ensures Step(a, hitch, at, e).Rejected? <==>
      || hitch != a.id || at == 0
      || (e.BootReopened? && !(a.status == AgentFailed && a.evidence == "boot deadline elapsed" && e.deadline != 0))
      || (e.InputStarted? && a.input.Some?)
      || (e.InputFinished? && (a.input.None? || !SameInput(a.input.value, e.intent)))
      || (e.CompactionRequested? &&
            (e.request.None?
             || (a.compaction.Some? &&
                 (a.compaction.value.status in {Queued, Submitted}
                  || (a.compaction.value.status == Completed && !a.compaction.value.continuation)))))
  {
    hide Assign;
  }

  /** What an event makes of the status and of the input in progress, read by field. */
  lemma StatusAfter(a: Agent, at: Time, e: Event)
    requires Step(a, a.id, at, e).Stepped?
    ensures var b := Step(a, a.id, at, e).agent;
            && b.status == (match e
                 case HitchSpawned(_) => Booting
                 case BootReopened(_) => Booting
                 case HitchReady => Active
                 case HitchFailed(_) => AgentFailed
                 case DropStarted => Dropping
                 case DeadlineChecked =>
                   if (a.status == Starting || a.status == Booting) && a.bootDeadline != 0 && at >= a.bootDeadline then AgentFailed
                   else a.status
                 case _ => a.status)
            && b.input == (match e
                 case InputStarted(intent) => Some(intent)
                 case InputFinished(_, _, _) => None
                 case CompactionSubmitted(c) => if Current(a, c) then None else a.input
                 case CompactionHasFailed(c, _) => if Current(a, c) then None else a.input
                 case CompactionUnconfirmed(c, _, _) => if Current(a, c) then None else a.input
                 case _ => a.input)
  {
    hide Doubled, Bounded;
  }

  /** What an event makes of the compaction. */
  lemma CompactionAfter(a: Agent, at: Time, e: Event)
    requires Step(a, a.id, at, e).Stepped?
    ensures var b := Step(a, a.id, at, e).agent.compaction;
            if e.CompactionRequested? then b == e.request
            else if a.compaction.None? then b.None?
            else
              var c := a.compaction.value;
              match e
              case CompactionWaiting(k, reason) => b == Some(if k == c.id && c.status == Queued then c.(reason := reason) else c)
              case CompactionCancelled(k) => b == if k == c.id && c.status == Queued then None else Some(c)
              case CompactionSubmitted(k) => b == Some(if k == c.id then c.(status := Submitted) else c)
              case CompactionCompleted(k) => b == Some(if k == c.id then c.(status := Completed, reason := "") else c)
              case CompactionHasFailed(k, reason) =>
                b == Some(if k == c.id then c.(status := CompactionFailed, reason := reason) else c)
              case CompactionUnconfirmed(k, reason, recovery) =>
                b == Some(if k == c.id
                          then c.(status := CompactionUnverified, reason := reason, recovered := recovery || c.recovered) else c)
              case DeadlineChecked =>
                b == Some(if a.status != Dropping && c.status == Submitted && at >= c.deadline
                          then c.(status := CompactionUnverified, reason := UNCONFIRMED) else c)
              case _ => b == Some(c)
  {
    hide Doubled, Bounded;
  }

  /** What an event shows of the agent's activity, and the times it stamps. */
  lemma ActivityAfter(a: Agent, at: Time, e: Event)
    requires Step(a, a.id, at, e).Stepped? && !e.DeadlineChecked? && !e.CapacityDetected?
    ensures var b := Step(a, a.id, at, e).agent;
            && b.activity == (match e
                 case HitchReady => Idle
                 case HitchBlocked(_) => Blocked
                 case BootReopened(_) => Unknown
                 case HitchFailed(_) => Unknown
                 case ActivityObserved(activity, _) => if a.status == Active then activity else a.activity
                 case InputFinished(_, outcome, _) =>
                   if outcome == "delivered" || outcome == "accepted" then Busy
                   else if outcome == "unverified" then Unknown else a.activity
                 case CompactionSubmitted(c) => if Current(a, c) then Compacting else a.activity
                 case CompactionCompleted(c) => if Current(a, c) then Idle else a.activity
                 case CompactionHasFailed(c, _) => if Current(a, c) then Unknown else a.activity
                 case CompactionUnconfirmed(c, _, _) => if Current(a, c) then Unknown else a.activity
                 case InterruptRequested(_) => Interrupting
                 case InterruptCompleted => Idle
                 case _ => a.activity)
            && b.submittedAt == (if e.InputFinished? && e.outcome == "delivered" then at else a.submittedAt)
            && b.finishedAt == (if e.InterruptCompleted? && at > a.finishedAt then at else a.finishedAt)
            && b.interruptAt == (match e
                 case InterruptRequested(_) => if a.interruptAt != 0 && at < a.interruptDeadline then a.interruptAt else at
                 case InterruptCompleted => 0
                 case _ => a.interruptAt)
            && b.interruptDeadline == (match e
                 case InterruptRequested(deadline) => deadline
                 case InterruptCompleted => 0
                 case _ => a.interruptDeadline)
            && b.bootDeadline == (match e
                 case HitchReady => 0
                 case HitchBlocked(_) => 0
                 case BootReopened(deadline) => deadline
                 case _ => a.bootDeadline)
  {
    hide Doubled, Bounded;
  }

  /** A capacity failure waits longer each time it comes back, and its first deadline stands. */
  lemma CapacityAfter(a: Agent, at: Time, e: Event)
    requires Step(a, a.id, at, e).Stepped?
    ensures var b := Step(a, a.id, at, e).agent.capacity;
            match e
            case CapacityCleared => b == NO_CAPACITY
            case CapacitySubmitted => b == a.capacity.(submitted := true, attempts := a.capacity.attempts + 1)
            case CapacityDetected(fingerprint, reason, deadline) =>
              if fingerprint == a.capacity.fingerprint then b == a.capacity
              else && b.fingerprint == fingerprint && b.evidence == reason && !b.submitted && b.attempts == a.capacity.attempts
                   && b.deadline == (if a.capacity.deadline == 0 then deadline else a.capacity.deadline)
                   && at + 100 <= b.nextAt <= at + 30000
            case _ => b == a.capacity
  {
  }

  /** A submitted compaction past its deadline. */
  predicate Overdue(a: Agent, at: Time) {
    a.compaction.Some? && a.compaction.value.status == Submitted && at >= a.compaction.value.deadline
  }

  lemma Checked(a: Agent, at: Time)
    requires at != 0
    ensures Step(a, a.id, at, DeadlineChecked)
            == Stepped(if a.status == Dropping then a else CheckDeadlines(a, at).(changedAt := at))
  {
    hide CheckDeadlines;
  }

  /** Apart from an overdue compaction, a deadline check changes only the status, the activity and
      the evidence, so an owner that compares those three misses no change. */
  lemma DeadlineCheckShows(a: Agent, at: Time)
    requires at != 0 && !Overdue(a, at)
    ensures Step(a, a.id, at, DeadlineChecked).Stepped?
    ensures var n := Step(a, a.id, at, DeadlineChecked).agent;
            && n == a.(status := n.status, activity := n.activity, evidence := n.evidence, changedAt := n.changedAt)
            && (n.status == Dropping || CheckDeadlines(n, at) == n)
            && (n.status == a.status && n.activity == a.activity && n.evidence == a.evidence ==>
                  a.status == Dropping || CheckDeadlines(a, at) == a)
  {
    hide Step;
    Checked(a, at);
  }

  /** Checking the deadlines again at the same time changes nothing more, so a reader that
      applies the check to its own copy agrees with the owner that saved it. */
  lemma DeadlineCheckSettles(a: Agent, at: Time)
    requires at != 0
    ensures Step(a, a.id, at, DeadlineChecked).Stepped?
    ensures var once := Step(a, a.id, at, DeadlineChecked).agent;
            Step(once, a.id, at, DeadlineChecked) == Stepped(once)
  {
    hide Step;
    Checked(a, at);
    var once := Step(a, a.id, at, DeadlineChecked).agent;
    Checked(once, at);
    if a.status != Dropping {
      assert CheckDeadlines(once, at) == once;
    }
  }

  function Doubled(attempts: nat): (delay: nat)
    ensures delay >= FIRST_RETRY
  {
    if attempts == 0 then FIRST_RETRY else 2 * Doubled(attempts - 1)
  }

  function Bounded(delay: nat): nat {
    if delay < LAST_RETRY then delay else LAST_RETRY
  }

  /** The delay before retry `attempt` is the first delay doubled per earlier attempt, and never
      more than the last one; the loop stops as soon as that bound is reached. */
  method RetryDelay(attempt: int) returns (delay: nat)
    ensures delay == Bounded(Doubled(if attempt > 0 then attempt else 0))
  {
    var remaining := attempt;
    delay := FIRST_RETRY;
    while remaining > 0 && delay < LAST_RETRY
      invariant remaining <= attempt || remaining == attempt
      invariant remaining >= 0 || remaining == attempt
      invariant attempt > 0 ==> delay == Bounded(Doubled(attempt - remaining))
      invariant attempt <= 0 ==> delay == FIRST_RETRY
      decreases remaining
    {
      delay := if 2 * delay < LAST_RETRY then 2 * delay else LAST_RETRY;
      remaining := remaining - 1;
    }
    if attempt > 0 {
      DoubledGrows(attempt - remaining, attempt);
    }
  }

  lemma {:induction false} DoubledGrows(m: nat, n: nat)
    requires m <= n
    ensures Doubled(m) <= Doubled(n)
    decreases n - m
  {
    if m < n {
      DoubledGrows(m, n - 1);
    }
  }

  /** The transition as the program makes it: a switch that assigns the fields of its own copy. */
  method Transition(agent: Agent, hitch: nat, at: Time, e: Event) returns (r: Stepped)
    ensures r == Step(agent, hitch, at, e)
  {
    hide CheckDeadlines, CapacityNoted;
    if hitch != agent.id || at == 0 {
      return Rejected("event does not identify this agent and its time");
    }
    var a := agent;
    match e {
      case ActivityObserved(activity, reason) =>
        if a.status == Active {
          a := a.(activity := activity, evidence := reason);
        }
      case CompactionCancelled(c) =>
        if Current(a, c) && a.compaction.value.status == Queued {
          a := a.(compaction := None);
        }
      case InterruptRequested(deadline) =>
        if a.interruptAt == 0 || at >= a.interruptDeadline {
          a := a.(interruptAt := at);
        }
        a := a.(activity := Interrupting, interruptDeadline := deadline);
      case InterruptCompleted =>
        a := a.(activity := Idle, interruptDeadline := 0, interruptAt := 0);
        if at > a.finishedAt {
          a := a.(finishedAt := at);
        }
      case CapacityDetected(fingerprint, reason, deadline) =>
        a := DetectCapacity(a, at, fingerprint, reason, deadline);
      case CapacitySubmitted =>
        a := a.(capacity := a.capacity.(submitted := true, attempts := a.capacity.attempts + 1));
      case CapacityCleared =>
        a := a.(capacity := NO_CAPACITY);
      case DeadlineChecked =>
        if a.status == Dropping {
          return Stepped(a);
        }
        a := SettleDeadlines(a, at);
      case Recorded =>
        return Stepped(a);
      case _ =>
        if e.InputStarted? || e.InputFinished? || e.CompactionRequested? {
          r := RequestTransition(a, at, e);
        } else if e.CompactionWaiting? || e.CompactionSubmitted? || e.CompactionCompleted? || e.CompactionHasFailed?
                  || e.CompactionUnconfirmed? {
          r := CompactionTransition(a, at, e);
        } else {
          r := HitchTransition(a, at, e);
        }
        return;
    }
    return Stepped(a.(changedAt := at));
  }

  method SettleDeadlines(agent: Agent, at: Time) returns (a: Agent)
    ensures a == CheckDeadlines(agent, at)
  {
    a := agent;
    if a.bootDeadline != 0 && at >= a.bootDeadline && (a.status == Starting || a.status == Booting) {
      a := a.(status := AgentFailed, evidence := "boot deadline elapsed");
    }
    if a.activity == Interrupting && a.interruptDeadline != 0 && at >= a.interruptDeadline {
      a := a.(activity := Wedged, evidence := "interrupt deadline elapsed");
    }
    if a.compaction.Some? && a.compaction.value.status == Submitted && at >= a.compaction.value.deadline {
      a := WithStatus(a, CompactionUnverified, UNCONFIRMED);
      a := a.(activity := Unknown, evidence := UNCONFIRMED);
    }
  }

  method DetectCapacity(agent: Agent, at: Time, fingerprint: string, reason: string, deadline: Time) returns (a: Agent)
    ensures a == CapacityNoted(agent, at, fingerprint, reason, deadline)
  {
    a := agent;
    if a.capacity.fingerprint != fingerprint {
      if a.capacity.deadline == 0 {
        a := a.(capacity := a.capacity.(deadline := deadline));
      }
      var delay := RetryDelay(a.capacity.attempts);
      a := a.(capacity := a.capacity.(fingerprint := fingerprint, evidence := reason, nextAt := at + delay, submitted := false));
    }
    if at >= a.capacity.deadline {
      a := a.(activity := Wedged, evidence := "provider capacity recovery deadline elapsed");
    }
  }

  /** The cases of the switch that start, fail or drop the agent. */
  method HitchTransition(agent: Agent, at: Time, e: Event) returns (r: Stepped)
    requires at != 0
    requires e.HitchSpawned? || e.HitchReady? || e.HitchBlocked? || e.BootReopened? || e.HitchFailed? || e.DropStarted?
    ensures r == Step(agent, agent.id, at, e)
  {
    var a := agent;
    match e {
      case HitchSpawned(pane) =>
        a := a.(pane := pane, status := Booting);
      case HitchReady =>
        a := a.(status := Active, activity := Idle, bootDeadline := 0);
      case HitchBlocked(reason) =>
        a := a.(promptNoticedAt := 0);
        a := a.(activity := Blocked, evidence := reason, bootDeadline := 0);
      case BootReopened(deadline) =>
        if a.status != AgentFailed || a.evidence != "boot deadline elapsed" || deadline == 0 {
          return Rejected("only an agent failed by its boot deadline can resume startup");
        }
        a := a.(status := Booting, activity := Unknown, evidence := "", bootDeadline := deadline);
      case HitchFailed(reason) =>
        a := a.(status := AgentFailed, activity := Unknown, evidence := reason);
      case DropStarted =>
        a := a.(status := Dropping);
    }
    return Stepped(a.(changedAt := at));
  }

  /** The cases of the switch that begin or end an intent or a request. */
  method RequestTransition(agent: Agent, at: Time, e: Event) returns (r: Stepped)
    requires at != 0 && (e.InputStarted? || e.InputFinished? || e.CompactionRequested?)
    ensures r == Step(agent, agent.id, at, e)
  {
    var a := agent;
    match e {
      case InputStarted(intent) =>
        if a.input.Some? {
          return Rejected("input already in progress");
        }
        a := a.(input := Some(intent));
      case InputFinished(intent, outcome, reason) =>
        if a.input.None? || !SameInput(a.input.value, intent) {
          return Rejected("input result has no matching intent");
        }
        a := a.(input := None);
        if outcome == "delivered" {
          a := a.(activity := Busy, submittedAt := at);
        } else if outcome == "accepted" {
          a := a.(activity := Busy, evidence := reason);
        } else if outcome == "unverified" {
          a := a.(activity := Unknown, evidence := "input submission unverified: " + reason);
        }
      case CompactionRequested(request) =>
        if a.compaction.Some? && PendingRequest(a.compaction.value) {
          return Rejected("compaction already pending");
        }
        if request.None? {
          return Rejected("compaction is required");
        }
        a := a.(compaction := request);
    }
    return Stepped(a.(changedAt := at));
  }

  /** The cases of the switch that act on the current compaction only. */
  method CompactionTransition(agent: Agent, at: Time, e: Event) returns (r: Stepped)
    requires at != 0
    requires e.CompactionWaiting? || e.CompactionSubmitted? || e.CompactionCompleted? || e.CompactionHasFailed? || e.CompactionUnconfirmed?
    ensures r == Step(agent, agent.id, at, e)
  {
    var a := agent;
    if !Current(a, e.compaction) {
      return Stepped(a);
    }
    match e {
      case CompactionWaiting(_, reason) =>
        if a.compaction.value.status != Queued {
          return Stepped(a);
        }
        a := a.(compaction := Some(a.compaction.value.(reason := reason)));
      case CompactionSubmitted(_) =>
        a := a.(compaction := Some(a.compaction.value.(status := Submitted)), activity := Compacting, input := None);
      case CompactionCompleted(_) =>
        a := WithStatus(a, Completed, "");
        a := a.(activity := Idle, evidence := "");
      case CompactionHasFailed(_, reason) =>
        a := WithStatus(a, CompactionFailed, reason);
        a := a.(activity := Unknown, evidence := reason, input := None);
      case CompactionUnconfirmed(_, reason, recovery) =>
        a := WithStatus(a, CompactionUnverified, reason);
        a := a.(activity := Unknown, evidence := reason, input := None);
        if recovery {
          a := a.(compaction := Some(a.compaction.value.(recovered := true)));
        }
    }
    return Stepped(a.(changedAt := at));
  }
}
