/** Models the input-close decision of `runClaudeSDKQuery` in server/claude-sdk.js as a timed
    automaton: one timer, several reasons to hold the input open, anchored deadlines. A message is
    handled in two steps (`Begin`, `End`), because the loop body awaits between disarming the timer
    and re-taking the decision. Times are milliseconds. */
module InputClose {
  import opened Common
  import opened TaskTracker
  import opened TaskHistory

  datatype Limits = Limits(idleMax: nat, continuationWait: nat, grace: nat)

  datatype Reason =
    | SteerHoldCap | BackgroundIdleCap | ContinuationWaitExpired | TurnResultWaitExpired
    | GraceExpired | ResultImmediate | DrainScheduledWakeup | Wakeup(name: string) | Other(name: string)

  /** `delay` None closes at once; `holds`: the run has a reason of its own to stay open. */
  datatype Plan = Plan(holds: bool, delay: Option<nat>, reason: Reason)

  /** What `planWakeupHold` answers for a pending wake-up. */
  datatype WakePlan = Hold(delay: nat, reason: Reason) | Release(reason: Reason)

  datatype Timer = Timer(due: nat, reason: Reason)

  datatype Channel = Channel(
    released: Option<(nat, Reason)>,
    timer: Option<Timer>,
    turnAnchor: Option<nat>)

  // ---------------------------------------------------------------- the decision

  function Released(c: Channel, now: nat, reason: Reason): Channel {
    c.(turnAnchor := None, released := if c.released.None? then Some((now, reason)) else c.released)
  }

  function Armed(c: Channel, now: nat, delay: nat, reason: Reason): Channel {
    c.(timer := Some(Timer(now + delay, reason)))
  }

  function BaseClosePlan(l: Limits, t: State, anchor: Option<nat>, steerBusy: bool,
                         continuationPossible: bool, turnAnswered: bool, now: nat): Plan
  {
    if steerBusy then Plan(true, Some(l.idleMax), SteerHoldCap)
    else if t.pending != map[] then
      Plan(true, Some(Max(0, t.holdAnchorAt + l.idleMax - now)), BackgroundIdleCap)
    else if t.continuationExpected then Plan(true, Some(l.continuationWait), ContinuationWaitExpired)
    else if !turnAnswered then
      Plan(true, Some(Max(0, (if anchor.Some? then anchor.value else now) + l.continuationWait - now)),
           TurnResultWaitExpired)
    else if continuationPossible then Plan(false, Some(l.grace), GraceExpired)
    else Plan(false, None, ResultImmediate)
  }

  function Applied(c: Channel, now: nat, p: Plan): Channel {
    if p.delay.None? then Released(c, now, p.reason) else Armed(c, now, p.delay.value, p.reason)
  }

  function Reconsidered(l: Limits, c: Channel, t: State, steerBusy: bool, continuationPossible: bool,
                        turnAnswered: bool, wake: Option<WakePlan>, draining: bool, now: nat): Channel
  {
    var d := c.(timer := None);
    if c.released.Some? || !t.quiet then d
    else
      var base := BaseClosePlan(l, t, c.turnAnchor, steerBusy, continuationPossible, turnAnswered, now);
      if wake.None? then Applied(d, now, base)
      else if wake.value.Release? || draining then
        if base.holds then Applied(d, now, base)
        else Released(d, now, if wake.value.Release? then wake.value.reason else DrainScheduledWakeup)
      else if base.holds then
        if base.delay.Some? && wake.value.delay > base.delay.value
        then Armed(d, now, wake.value.delay, wake.value.reason) else Applied(d, now, base)
      else Armed(d, now, wake.value.delay, wake.value.reason)
  }

  /** A pending wake-up never shortens a hold of the run's own: with one, the timer is due no
      earlier than without; an ended or draining wake-up changes nothing. */
  lemma WakeNeverShortensOwnHold(l: Limits, c: Channel, t: State, steerBusy: bool,
      continuationPossible: bool, turnAnswered: bool, wake: WakePlan, draining: bool, now: nat)
    requires c.released.None? && t.quiet
    requires BaseClosePlan(l, t, c.turnAnchor, steerBusy, continuationPossible, turnAnswered, now).holds
    ensures var alone := Reconsidered(l, c, t, steerBusy, continuationPossible, turnAnswered, None, draining, now);
            var both := Reconsidered(l, c, t, steerBusy, continuationPossible, turnAnswered, Some(wake), draining, now);
            && both.released.None? && alone.timer.Some? && both.timer.Some?
            && both.timer.value.due ==
               (if wake.Release? || draining then alone.timer.value.due
                else Max(alone.timer.value.due, now + wake.delay))
  {
  }

  class RunInput {
    const limits: Limits
    var released: Option<(nat, Reason)>
    var timer: Option<Timer>
    var turnAnchor: Option<nat>

    function Abs(): Channel
      reads this
    {
      Channel(released, timer, turnAnchor)
    }

    constructor (limits: Limits)
      ensures this.limits == limits && Abs() == Channel(None, None, None)
    {
      this.limits := limits;
      released, timer, turnAnchor := None, None, None;
    }

    method ReleaseInput(now: nat, reason: Reason)
      modifies this
      ensures Abs() == Released(old(Abs()), now, reason)
    {
      turnAnchor := None;
      if released.None? { released := Some((now, reason)); }
    }

    method DisarmInputClose()
      modifies this
      ensures Abs() == old(Abs()).(timer := None)
    {
      timer := None;
    }

    method ArmInputClose(now: nat, delay: nat, reason: Reason)
      modifies this
      ensures Abs() == Armed(old(Abs()), now, delay, reason)
    {
      DisarmInputClose();
      timer := Some(Timer(now + delay, reason));
    }

    method ApplyClosePlan(now: nat, p: Plan)
      modifies this
      ensures Abs() == Applied(old(Abs()), now, p)
    {
      if p.delay.None? {
        ReleaseInput(now, p.reason);
      } else {
        ArmInputClose(now, p.delay.value, p.reason);
      }
    }

    method ReconsiderInputClose(t: State, steerBusy: bool, continuationPossible: bool, turnAnswered: bool,
                                wake: Option<WakePlan>, draining: bool, now: nat)
      modifies this
      ensures Abs() == Reconsidered(limits, old(Abs()), t, steerBusy, continuationPossible, turnAnswered,
                                    wake, draining, now)
    {
      DisarmInputClose();
      if released.Some? || !t.quiet { return; }
      var base := BaseClosePlan(limits, t, turnAnchor, steerBusy, continuationPossible, turnAnswered, now);
      if wake.None? {
        ApplyClosePlan(now, base);
      } else if wake.value.Release? || draining {
        if base.holds {
          ApplyClosePlan(now, base);
        } else {
          ReleaseInput(now, if wake.value.Release? then wake.value.reason else DrainScheduledWakeup);
        }
      } else if base.holds {
        if base.delay.Some? && wake.value.delay > base.delay.value {
          ArmInputClose(now, wake.value.delay, wake.value.reason);
        } else {
          ApplyClosePlan(now, base);
        }
      } else {
        ArmInputClose(now, wake.value.delay, wake.value.reason);
      }
    }

    /** The timer callback. */
    method OnTimer(now: nat)
      requires timer.Some?
      modifies this
      ensures Abs() == Released(old(Abs()).(timer := None), now, old(timer).value.reason)
    {
      var reason := timer.value.reason;
      timer := None;
      ReleaseInput(now, reason);
    }

    /** A steer was queued: it replaces an armed close by the steer hold. */
    method OnQueued(now: nat)
      modifies this
      ensures Abs() == Queued(limits, old(Abs()), now)
    {
      if released.None? && timer.Some? { ArmInputClose(now, limits.idleMax, SteerHoldCap); }
    }
  }

  function Queued(l: Limits, c: Channel, now: nat): Channel {
    if c.released.None? && c.timer.Some? then Armed(c, now, l.idleMax, SteerHoldCap) else c
  }

  // ---------------------------------------------------------------- whole runs

  /** `handling` is the message being handled; `lastEnd` when the last one was done; `busySince`
      when the current unbroken stretch of handling began (stretches meeting at an instant are
      one). `free`: the last decision saw no steer work and no wake-up, and no steer came since. */
  datatype Run = Run(
    now: nat, chan: Channel, tasks: State, answered: bool, continuationPossible: bool,
    handling: Option<Message>, lastEnd: Option<nat>, busySince: nat, free: bool)

  datatype Step =
    | Begin(m: Message, continuation: bool)
    | End(answers: bool, steerBusy: bool, wake: Option<WakePlan>, draining: bool)
    | Fire
    | Advance(to: nat)
    | SteerQueued
    | Close(reason: Reason)

  function Start(now: nat): Run {
    Run(now, Channel(None, None, None), Initial(now), false, false, None, None, now, false)
  }

  /** A timer fires when it is due: outside message handling, time does not pass it. */
  predicate Enabled(r: Run, step: Step) {
    match step
    case Begin(_, _) => r.handling.None?
    case End(_, _, _, _) => r.handling.Some?
    case Fire => r.chan.timer.Some? && r.chan.timer.value.due <= r.now
    case Advance(to) =>
      r.now <= to && (r.handling.Some? || r.chan.timer.None? || to <= r.chan.timer.value.due)
    case SteerQueued => true
    case Close(_) => true
  }

  function TurnWeighed(r: Run, answers: bool): (bool, Option<nat>)
    requires r.handling.Some?
  {
    var m := r.handling.value;
    if m.Result? && !Truthy(m.parent) && !r.answered then
      (answers, if answers then None
                else if r.chan.turnAnchor.Some? then r.chan.turnAnchor else Some(r.now))
    else (r.answered, r.chan.turnAnchor)
  }

  function Next(l: Limits, r: Run, step: Step): Run
    requires Enabled(r, step)
  {
    match step
    case Begin(m, continuation) =>
      var tasks := Observed(r.tasks, m, r.now);
      r.(chan := r.chan.(timer := None), tasks := tasks, handling := Some(m),
         continuationPossible := r.continuationPossible || continuation || tasks.continuationExpected
                                 || ReportsBackground(r.tasks.pending, m),
         busySince := if r.lastEnd == Some(r.now) then r.busySince else r.now)
    case End(answers, steerBusy, wake, draining) =>
      var (answered, anchor) := TurnWeighed(r, answers);
      r.(answered := answered, handling := None, lastEnd := Some(r.now),
         free := !steerBusy && wake.None?,
         chan := Reconsidered(l, r.chan.(turnAnchor := anchor), r.tasks, steerBusy,
                              r.continuationPossible, answered, wake, draining, r.now))
    case Fire => r.(chan := Released(r.chan.(timer := None), r.now, r.chan.timer.value.reason))
    case Advance(to) => r.(now := to)
    case SteerQueued => r.(chan := Queued(l, r.chan, r.now), free := false)
    case Close(reason) => r.(chan := Released(r.chan, r.now, reason))
  }

  /** `rs` is a run of the automaton taking `steps`. */
  ghost predicate IsRun(l: Limits, rs: seq<Run>, steps: seq<Step>) {
    && |rs| == |steps| + 1
    && forall i :: 0 <= i < |steps| ==> Enabled(rs[i], steps[i]) && rs[i+1] == Next(l, rs[i], steps[i])
  }

  /** The anchored deadline of a quiet run that is held for pending tasks, or for the result of
      its own turn; None when neither hold applies. */
  function Deadline(l: Limits, r: Run): Option<nat> {
    if !r.tasks.quiet then None
    else if r.tasks.pending != map[] then Some(r.tasks.holdAnchorAt + l.idleMax)
    else if !r.tasks.continuationExpected && !r.answered && r.chan.turnAnchor.Some?
    then Some(r.chan.turnAnchor.value + l.continuationWait)
    else None
  }

  predicate Open(r: Run) { r.chan.released.None? }

  predicate Inv(l: Limits, r: Run) {
    && (r.handling.Some? ==> r.chan.timer.None?)
    && r.busySince <= r.now
    && (r.lastEnd.Some? ==> r.lastEnd.value <= r.now)
    && (r.chan.timer.Some? ==> r.now <= r.chan.timer.value.due)
    && (r.free ==> r.lastEnd.Some?)
    && (Open(r) && r.free && r.handling.None? && Deadline(l, r).Some? ==>
          && r.chan.timer.Some?
          && r.chan.timer.value.due == Max(Deadline(l, r).value, r.lastEnd.value))
  }

  /** A free decision of a held run arms the timer for its deadline, or for now if that is past. */
  lemma DecisionArmsDeadline(l: Limits, r: Run, answers: bool, draining: bool)
    requires r.handling.Some?
    ensures var t := Next(l, r, Step.End(answers, false, None, draining));
            Open(t) && Deadline(l, t).Some? ==>
              t.chan.timer.Some? && t.chan.timer.value.due == Max(Deadline(l, t).value, r.now)
  {
  }

  lemma EndKeepsInv(l: Limits, r: Run, answers: bool, steerBusy: bool, wake: Option<WakePlan>, draining: bool)
    requires Inv(l, r) && r.handling.Some?
    ensures Inv(l, Next(l, r, Step.End(answers, steerBusy, wake, draining)))
  {
    if !steerBusy && wake.None? { DecisionArmsDeadline(l, r, answers, draining); }
  }

  lemma InvStep(l: Limits, r: Run, step: Step)
    requires Inv(l, r) && Enabled(r, step)
    ensures Inv(l, Next(l, r, step))
  {
    match step
    case End(answers, steerBusy, wake, draining) => EndKeepsInv(l, r, answers, steerBusy, wake, draining);
    case _ =>
  }

  lemma {:induction false} InvRun(l: Limits, rs: seq<Run>, steps: seq<Step>, i: nat)
    requires IsRun(l, rs, steps) && Inv(l, rs[0]) && i < |rs|
    ensures Inv(l, rs[i])
    decreases i
  {
    if i > 0 {
      InvRun(l, rs, steps, i - 1);
      InvStep(l, rs[i-1], steps[i-1]);
    }
  }

  /** Every reachable state: past the anchored deadline the input is open only while a message is
      being handled, or at the very instant its handling ended. */
  lemma OpenOnlyUntilDeadline(l: Limits, rs: seq<Run>, steps: seq<Step>, i: nat)
    requires IsRun(l, rs, steps) && i < |rs| && rs[0] == Start(rs[0].now)
    requires Open(rs[i]) && rs[i].free && rs[i].handling.None? && Deadline(l, rs[i]).Some?
    ensures rs[i].now <= Deadline(l, rs[i]).value || rs[i].lastEnd == Some(rs[i].now)
  {
    InvRun(l, rs, steps, i);
  }

  /** A step of a stretch without steer or wake-up whose messages concern neither a pending task nor
      the turn and do not wake the main loop: read off the message and the decision's inputs. */
  predicate UnrelatedStep(r: Run, step: Step) {
    match step
    case Begin(m, _) => Unrelated(r.tasks.pending, m) && !StartsMainLoopActivity(m)
    case End(_, steerBusy, wake, _) => !steerBusy && wake.None? && (r.handling.Some? ==> !r.handling.value.Result?)
    case SteerQueued => false
    case _ => true
  }

  predicate UnrelatedBetween(rs: seq<Run>, steps: seq<Step>, a: nat, i: nat)
    requires |rs| == |steps| + 1 && a <= i < |rs|
  {
    forall k :: a <= k < i ==> UnrelatedStep(rs[k], steps[k])
  }

  /** While open, the run is held by one of the two anchored holds, with deadline `d`. */
  predicate HeldUntil(l: Limits, r: Run, d: nat) { Open(r) ==> r.free && Deadline(l, r) == Some(d) }

  lemma BeginKeepsHold(l: Limits, r: Run, m: Message, continuation: bool, d: nat)
    requires HeldUntil(l, r, d) && Enabled(r, Begin(m, continuation)) && UnrelatedStep(r, Begin(m, continuation))
    ensures HeldUntil(l, Next(l, r, Begin(m, continuation)), d)
  {
    UnrelatedKeepsHold(r.tasks, m, r.now);
  }

  lemma HoldStep(l: Limits, r: Run, step: Step, d: nat)
    requires HeldUntil(l, r, d) && Enabled(r, step) && UnrelatedStep(r, step)
    ensures HeldUntil(l, Next(l, r, step), d)
  {
    match step
    case Begin(m, continuation) => BeginKeepsHold(l, r, m, continuation, d);
    case _ =>
  }

  /** Unrelated messages keep the deadline of either hold, for pending tasks and for the result of
      the turn, however many there are, as long as the input is open. */
  lemma {:induction false} UnrelatedKeepsDeadline(l: Limits, rs: seq<Run>, steps: seq<Step>, a: nat, i: nat, d: nat)
    requires IsRun(l, rs, steps) && a <= i < |rs| && UnrelatedBetween(rs, steps, a, i) && HeldUntil(l, rs[a], d)
    ensures HeldUntil(l, rs[i], d)
    decreases i - a
  {
    if a < i {
      UnrelatedKeepsDeadline(l, rs, steps, a, i - 1, d);
      HoldStep(l, rs[i-1], steps[i-1], d);
    }
  }

  predicate LateOnlyIfBusy(r: Run, d: nat) {
    Open(r) ==> r.now <= d || (r.busySince <= d && (r.handling.Some? || r.lastEnd == Some(r.now)))
  }

  lemma LateStep(l: Limits, r: Run, step: Step, d: nat)
    requires Inv(l, r) && Enabled(r, step) && LateOnlyIfBusy(r, d) && HeldUntil(l, r, d)
    ensures LateOnlyIfBusy(Next(l, r, step), d)
  {
  }

  /** What is known of a state inside such a stretch. */
  lemma HeldInStretch(l: Limits, rs: seq<Run>, steps: seq<Step>, a: nat, i: nat, d: nat)
    requires IsRun(l, rs, steps) && rs[0] == Start(rs[0].now)
    requires a <= i < |rs| && UnrelatedBetween(rs, steps, a, i) && HeldUntil(l, rs[a], d)
    ensures Inv(l, rs[i]) && HeldUntil(l, rs[i], d)
  {
    UnrelatedKeepsDeadline(l, rs, steps, a, i, d);
    InvRun(l, rs, steps, i);
  }

  lemma LateInStretch(l: Limits, r: Run, next: Run, step: Step, d: nat)
    requires Inv(l, r) && HeldUntil(l, r, d) && LateOnlyIfBusy(r, d) && Enabled(r, step) && next == Next(l, r, step)
    ensures LateOnlyIfBusy(next, d)
  {
    LateStep(l, r, step, d);
  }

  lemma StretchShortens(rs: seq<Run>, steps: seq<Step>, a: nat, i: nat)
    requires |rs| == |steps| + 1 && a < i < |rs| && UnrelatedBetween(rs, steps, a, i)
    ensures UnrelatedBetween(rs, steps, a, i - 1)
  {
  }

  /** From any reachable state held until `d`, unrelated messages may disarm and re-arm the timer any
      number of times: the input outlives `d` only while the loop has been handling messages without
      a single idle instant since `d` or before. */
  lemma {:induction false} ChatterCannotExtendHold(l: Limits, rs: seq<Run>, steps: seq<Step>, a: nat, i: nat, d: nat)
    requires IsRun(l, rs, steps) && rs[0] == Start(rs[0].now)
    requires a <= i < |rs| && UnrelatedBetween(rs, steps, a, i) && HeldUntil(l, rs[a], d) && rs[a].now <= d
    ensures LateOnlyIfBusy(rs[i], d)
    decreases i - a
  {
    if a < i {
      StretchShortens(rs, steps, a, i);
      ChatterCannotExtendHold(l, rs, steps, a, i - 1, d);
      HeldInStretch(l, rs, steps, a, i - 1, d);
      LateInStretch(l, rs[i-1], rs[i], steps[i-1], d);
    }
  }

  lemma {:induction false} ClosedStays(l: Limits, rs: seq<Run>, steps: seq<Step>, a: nat, i: nat)
    requires IsRun(l, rs, steps) && a <= i < |rs| && !Open(rs[a])
    ensures !Open(rs[i])
    decreases i - a
  {
    if a < i {
      ClosedStays(l, rs, steps, a, i - 1);
      assert rs[i] == Next(l, rs[i-1], steps[i-1]);
    }
  }

  /** While the input is open and no message is being handled, no step passes the deadline. */
  lemma TimeStopsAtDeadline(l: Limits, r: Run, step: Step, d: nat)
    requires Inv(l, r) && Enabled(r, step) && Open(r) && HeldUntil(l, r, d) && r.now <= d
    requires r.handling.Some? ==> Next(l, r, step).now == r.now
    ensures Next(l, r, step).now <= d
  {
  }

  lemma ClosedInTime(l: Limits, r: Run, next: Run, step: Step, d: nat)
    requires Inv(l, r) && HeldUntil(l, r, d) && Enabled(r, step) && next == Next(l, r, step)
    requires r.now <= d < next.now && (r.handling.Some? ==> next.now == r.now)
    ensures !Open(r)
  {
    if Open(r) { TimeStopsAtDeadline(l, r, step, d); }
  }

  /** From any reachable state held until `d`, with unrelated messages only and every message handled
      within the instant it arrives, the input is closed once time has passed `d`. */
  lemma {:induction false} ClosedByDeadline(l: Limits, rs: seq<Run>, steps: seq<Step>, a: nat, i: nat, d: nat)
    requires IsRun(l, rs, steps) && rs[0] == Start(rs[0].now)
    requires a <= i < |rs| && UnrelatedBetween(rs, steps, a, i) && HeldUntil(l, rs[a], d)
    requires rs[a].now <= d < rs[i].now
    requires forall k :: a <= k < i && rs[k].handling.Some? ==> rs[k+1].now == rs[k].now
    ensures !Open(rs[i])
    decreases i - a
  {
    StretchShortens(rs, steps, a, i);
    if d < rs[i-1].now {
      ClosedByDeadline(l, rs, steps, a, i - 1, d);
    } else {
      HeldInStretch(l, rs, steps, a, i - 1, d);
      ClosedInTime(l, rs[i-1], rs[i], steps[i-1], d);
    }
    if !Open(rs[i-1]) { ClosedStays(l, rs, steps, i - 1, i); }
  }

  /** The first release is final: its time and reason never change, and no timer is armed again. */
  lemma {:induction false} FirstReleaseIsFinal(l: Limits, rs: seq<Run>, steps: seq<Step>, i: nat, j: nat)
    requires IsRun(l, rs, steps) && i <= j < |rs| && !Open(rs[i])
    ensures rs[j].chan.released == rs[i].chan.released
    ensures rs[j].chan.timer.None? || rs[j].chan.timer == rs[i].chan.timer
    decreases j - i
  {
    if i < j {
      assert rs[j] == Next(l, rs[j-1], steps[j-1]);
      FirstReleaseIsFinal(l, rs, steps, i, j - 1);
    }
  }

  // ---------------------------------------------------------------- the anchor of the turn wait

  /** Step `k` weighs a top-level `result` against the turn. */
  predicate WeighsAt(rs: seq<Run>, steps: seq<Step>, k: nat)
    requires k < |steps| && k < |rs|
  {
    && steps[k].End? && rs[k].handling.Some?
    && rs[k].handling.value.Result? && !Truthy(rs[k].handling.value.parent)
  }

  predicate NoneWeighed(rs: seq<Run>, steps: seq<Step>, i: nat)
    requires i <= |steps| < |rs|
  {
    forall k :: 0 <= k < i ==> !WeighsAt(rs, steps, k)
  }

  /** One step: a top-level `result` sets a missing anchor, nothing else sets or moves it. */
  lemma AnchorStep(l: Limits, rs: seq<Run>, steps: seq<Step>, n: nat)
    requires IsRun(l, rs, steps) && n < |steps| && Open(rs[n+1]) && !rs[n+1].answered
    ensures Open(rs[n]) && !rs[n].answered
    ensures rs[n+1].chan.turnAnchor
         == if rs[n].chan.turnAnchor.None? && WeighsAt(rs, steps, n) then Some(rs[n].now) else rs[n].chan.turnAnchor
  {
    assert rs[n+1] == Next(l, rs[n], steps[n]);
  }

  /** While the turn is unanswered, its wait counts from the first top-level `result`, and has an
      anchor exactly when there was one. */
  lemma {:induction false} AnchorIsFirstTopLevelResult(l: Limits, rs: seq<Run>, steps: seq<Step>, i: nat)
    requires IsRun(l, rs, steps) && rs[0] == Start(rs[0].now) && i < |rs|
    requires Open(rs[i]) && !rs[i].answered
    ensures rs[i].chan.turnAnchor.None? <==> NoneWeighed(rs, steps, i)
    ensures forall k :: 0 <= k < i && WeighsAt(rs, steps, k) && NoneWeighed(rs, steps, k)
              ==> rs[i].chan.turnAnchor == Some(rs[k].now)
    decreases i
  {
    if i > 0 {
      AnchorStep(l, rs, steps, i - 1);
      AnchorIsFirstTopLevelResult(l, rs, steps, i - 1);
    }
  }

  predicate QuietWithoutAnchor(l: Limits, r: Run, now: nat) {
    && r.now == now && Open(r) && r.handling.None? && !r.answered && r.chan.turnAnchor.None?
    && r.tasks.quiet && r.tasks.pending == map[] && !r.tasks.continuationExpected
    && r.chan.timer == Some(Timer(now + l.continuationWait, TurnResultWaitExpired))
  }

  const NestedResult := Result(Some("task"))
  const Chatter := TaskTracker.Other(None)
  const Undecided := Step.End(false, false, None, false)

  lemma NestedResultOpens(l: Limits)
    ensures var r1 := Next(l, Start(0), Begin(NestedResult, false));
            QuietWithoutAnchor(l, Next(l, r1, Undecided), 0)
  {
    var t := Start(0).tasks;
    assert Ops(NestedResult) == [Speak("task")] + [ResultSeen];
    ApplyAllConcat(t, [Speak("task")], [ResultSeen], 0);
  }

  lemma ChatterRearms(l: Limits, r: Run, now: nat)
    requires QuietWithoutAnchor(l, r, now)
    ensures var later := now + l.continuationWait;
            var r1 := Next(l, r, Advance(later));
            var r2 := Next(l, r1, Begin(Chatter, false));
            QuietWithoutAnchor(l, Next(l, r2, Undecided), later)
  {
    assert Ops(Chatter) == [];
  }

  /** Without that anchor the bound fails: after a nested `result` (one with a parent tool use),
      unrelated messages arriving just in time keep the input open for any number of full waits. */
  lemma {:induction false} NestedResultIsUnbounded(l: Limits, k: nat) returns (rs: seq<Run>, steps: seq<Step>)
    ensures IsRun(l, rs, steps) && rs[0] == Start(0)
    ensures forall i :: 0 <= i < |steps| && steps[i].Begin? ==> steps[i].m == if i == 0 then NestedResult else Chatter
    ensures QuietWithoutAnchor(l, rs[|steps|], k * l.continuationWait)
    decreases k
  {
    if k == 0 {
      NestedResultOpens(l);
      var r1 := Next(l, Start(0), Begin(NestedResult, false));
      rs, steps := [Start(0), r1, Next(l, r1, Undecided)], [Begin(NestedResult, false), Undecided];
    } else {
      rs, steps := NestedResultIsUnbounded(l, k - 1);
      var now, later := (k - 1) * l.continuationWait, k * l.continuationWait;
      assert later == now + l.continuationWait;
      var r := rs[|steps|];
      ChatterRearms(l, r, now);
      var r1 := Next(l, r, Advance(later));
      var r2 := Next(l, r1, Begin(Chatter, false));
      rs := rs + [r1, r2, Next(l, r2, Undecided)];
      steps := steps + [Advance(later), Begin(Chatter, false), Undecided];
    }
  }
}
