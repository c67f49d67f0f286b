/** What a decision of the automaton of `InputClose` comes to, read off the run's fields and what
    came with the decision: the instant the input closes and the reason, if nothing else comes. */
module InputDecisions {
  import opened Common
  import opened TaskTracker
  import opened InputClose

  /** From state `a` to state `i` nothing comes: only time passes and timers fire. */
  predicate Undisturbed(steps: seq<Step>, a: nat, i: nat)
    requires i <= |steps|
  {
    forall j :: a <= j < i ==> steps[j].Fire? || steps[j].Advance?
  }

  /** While nothing else comes after state `a`, the input is open at every instant before `due`, and
      closes at `due` for that reason. */
  ghost predicate ClosesAt(rs: seq<Run>, steps: seq<Step>, a: nat, due: nat, reason: Reason)
    requires |rs| == |steps| + 1 && a < |rs|
  {
    forall i :: a <= i < |rs| && Undisturbed(steps, a, i) ==>
      && (rs[i].now < due ==> Open(rs[i]))
      && (due < rs[i].now ==> !Open(rs[i]))
      && (!Open(rs[i]) ==> rs[i].chan.released == Some((due, reason)))
  }

  /** From state `a` on the input is closed, released at `at`. */
  ghost predicate ClosedSince(rs: seq<Run>, a: nat, at: nat, reason: Reason) {
    forall i :: a <= i < |rs| ==> rs[i].chan.released == Some((at, reason))
  }

  predicate ArmedFor(r: Run, due: nat, reason: Reason) {
    Open(r) && r.handling.None? && r.now <= due && r.chan.timer == Some(Timer(due, reason))
  }

  predicate FiredAt(r: Run, due: nat, reason: Reason) {
    r.handling.None? && due <= r.now && r.chan.timer.None? && r.chan.released == Some((due, reason))
  }

  lemma {:induction false} TimerCloses(l: Limits, rs: seq<Run>, steps: seq<Step>, a: nat, i: nat, due: nat,
      reason: Reason)
    requires IsRun(l, rs, steps) && a <= i < |rs| && ArmedFor(rs[a], due, reason) && Undisturbed(steps, a, i)
    ensures ArmedFor(rs[i], due, reason) || FiredAt(rs[i], due, reason)
    decreases i - a
  {
    if a < i {
      TimerCloses(l, rs, steps, a, i - 1, due, reason);
      assert rs[i] == Next(l, rs[i-1], steps[i-1]);
    }
  }

  lemma ArmedCloses(l: Limits, rs: seq<Run>, steps: seq<Step>, a: nat, due: nat, reason: Reason)
    requires IsRun(l, rs, steps) && a < |rs| && ArmedFor(rs[a], due, reason)
    ensures ClosesAt(rs, steps, a, due, reason)
  {
    forall i | a <= i < |rs| && Undisturbed(steps, a, i)
      ensures ArmedFor(rs[i], due, reason) || FiredAt(rs[i], due, reason)
    {
      TimerCloses(l, rs, steps, a, i, due, reason);
    }
  }

  lemma ReleasedCloses(l: Limits, rs: seq<Run>, steps: seq<Step>, a: nat, at: nat, reason: Reason)
    requires IsRun(l, rs, steps) && a < |rs| && rs[a].chan.released == Some((at, reason))
    ensures ClosedSince(rs, a, at, reason)
  {
    forall i | a <= i < |rs| ensures rs[i].chan.released == Some((at, reason)) {
      FirstReleaseIsFinal(l, rs, steps, a, i);
    }
  }

  // ---------------------------------------------------------------- decisions

  /** Step `k` decides about an input that is open. */
  ghost predicate Decides(l: Limits, rs: seq<Run>, steps: seq<Step>, k: nat) {
    IsRun(l, rs, steps) && k < |steps| && steps[k].End? && Open(rs[k])
  }

  /** The same, once the main loop is quiet. */
  ghost predicate DecidesQuietly(l: Limits, rs: seq<Run>, steps: seq<Step>, k: nat) {
    Decides(l, rs, steps, k) && rs[k].tasks.quiet
  }

  /** A wake-up that is still due, and that no drain cuts short. */
  predicate WakeHolds(step: Step)
    requires step.End?
  {
    step.wake.Some? && step.wake.value.Hold? && !step.draining
  }

  /** The decision of step `k` closes at `due`, or at its wake-up if that comes later. */
  ghost predicate ClosesAtOrWake(rs: seq<Run>, steps: seq<Step>, k: nat, due: nat, reason: Reason)
    requires |rs| == |steps| + 1 && k < |steps| && steps[k].End?
  {
    if WakeHolds(steps[k]) && due < rs[k].now + steps[k].wake.value.delay
    then ClosesAt(rs, steps, k + 1, rs[k].now + steps[k].wake.value.delay, steps[k].wake.value.reason)
    else ClosesAt(rs, steps, k + 1, due, reason)
  }

  lemma HoldCloses(l: Limits, rs: seq<Run>, steps: seq<Step>, k: nat, due: nat, reason: Reason)
    requires DecidesQuietly(l, rs, steps, k) && rs[k].now <= due
    requires var wake := WakeHolds(steps[k]) && due < rs[k].now + steps[k].wake.value.delay;
             if wake then ArmedFor(rs[k+1], rs[k].now + steps[k].wake.value.delay, steps[k].wake.value.reason)
             else ArmedFor(rs[k+1], due, reason)
    ensures ClosesAtOrWake(rs, steps, k, due, reason)
  {
    if WakeHolds(steps[k]) && due < rs[k].now + steps[k].wake.value.delay {
      ArmedCloses(l, rs, steps, k + 1, rs[k].now + steps[k].wake.value.delay, steps[k].wake.value.reason);
    } else {
      ArmedCloses(l, rs, steps, k + 1, due, reason);
    }
  }

  /** Work of a steer holds the input for the idle ceiling, whatever else there is. */
  lemma SteerHoldCloses(l: Limits, rs: seq<Run>, steps: seq<Step>, k: nat)
    requires DecidesQuietly(l, rs, steps, k) && steps[k].steerBusy
    ensures ClosesAtOrWake(rs, steps, k, rs[k].now + l.idleMax, SteerHoldCap)
  {
    HoldCloses(l, rs, steps, k, rs[k].now + l.idleMax, SteerHoldCap);
  }

  /** Without it pending tasks hold the input until the idle ceiling past their anchor. */
  lemma TaskHoldCloses(l: Limits, rs: seq<Run>, steps: seq<Step>, k: nat)
    requires DecidesQuietly(l, rs, steps, k) && !steps[k].steerBusy && rs[k].tasks.pending != map[]
    ensures ClosesAtOrWake(rs, steps, k, Max(rs[k].now, rs[k].tasks.holdAnchorAt + l.idleMax), BackgroundIdleCap)
  {
    HoldCloses(l, rs, steps, k, Max(rs[k].now, rs[k].tasks.holdAnchorAt + l.idleMax), BackgroundIdleCap);
  }

  /** Nothing pending: neither steer work nor a task. */
  predicate Idle(r: Run, step: Step)
    requires step.End?
  {
    !step.steerBusy && r.tasks.pending == map[]
  }

  /** With nothing pending an expected continuation holds the input for one wait from the decision. */
  lemma ContinuationHoldCloses(l: Limits, rs: seq<Run>, steps: seq<Step>, k: nat)
    requires DecidesQuietly(l, rs, steps, k) && Idle(rs[k], steps[k]) && rs[k].tasks.continuationExpected
    ensures ClosesAtOrWake(rs, steps, k, rs[k].now + l.continuationWait, ContinuationWaitExpired)
  {
    HoldCloses(l, rs, steps, k, rs[k].now + l.continuationWait, ContinuationWaitExpired);
  }

  /** With no continuation expected either, an unanswered turn holds it for one wait from its anchor, or
      from the decision when it has none. */
  lemma TurnHoldCloses(l: Limits, rs: seq<Run>, steps: seq<Step>, k: nat)
    requires DecidesQuietly(l, rs, steps, k) && Idle(rs[k], steps[k]) && !rs[k].tasks.continuationExpected
    requires !rs[k+1].answered
    ensures var from := if rs[k+1].chan.turnAnchor.Some? then rs[k+1].chan.turnAnchor.value else rs[k].now;
            ClosesAtOrWake(rs, steps, k, Max(rs[k].now, from + l.continuationWait), TurnResultWaitExpired)
  {
    var from := if rs[k+1].chan.turnAnchor.Some? then rs[k+1].chan.turnAnchor.value else rs[k].now;
    HoldCloses(l, rs, steps, k, Max(rs[k].now, from + l.continuationWait), TurnResultWaitExpired);
  }

  /** The run has no reason of its own to keep the input open. */
  predicate HeldForNothing(rs: seq<Run>, steps: seq<Step>, k: nat)
    requires |rs| == |steps| + 1 && k < |steps| && steps[k].End?
  {
    Idle(rs[k], steps[k]) && !rs[k].tasks.continuationExpected && rs[k+1].answered
  }

  /** Held for nothing and without a wake-up, the input is released at the decision if and only if no
      continuation is possible; else it closes when the grace has passed. */
  lemma AnsweredCloses(l: Limits, rs: seq<Run>, steps: seq<Step>, k: nat)
    requires DecidesQuietly(l, rs, steps, k) && HeldForNothing(rs, steps, k) && steps[k].wake.None?
    ensures !Open(rs[k+1]) <==> !rs[k].continuationPossible
    ensures !rs[k].continuationPossible ==> ClosedSince(rs, k + 1, rs[k].now, ResultImmediate)
    ensures rs[k].continuationPossible ==> ClosesAt(rs, steps, k + 1, rs[k].now + l.grace, GraceExpired)
  {
    if rs[k].continuationPossible {
      ArmedCloses(l, rs, steps, k + 1, rs[k].now + l.grace, GraceExpired);
    } else {
      ReleasedCloses(l, rs, steps, k + 1, rs[k].now, ResultImmediate);
    }
  }

  /** Held for a wake-up only, it closes when that is due, or at the decision if the wake-up is over or
      the server drains; the grace plays no part. */
  lemma WakeOnlyCloses(l: Limits, rs: seq<Run>, steps: seq<Step>, k: nat)
    requires DecidesQuietly(l, rs, steps, k) && HeldForNothing(rs, steps, k) && steps[k].wake.Some?
    ensures var wake := steps[k].wake.value;
            if wake.Release? then ClosedSince(rs, k + 1, rs[k].now, wake.reason)
            else if steps[k].draining then ClosedSince(rs, k + 1, rs[k].now, DrainScheduledWakeup)
            else ClosesAt(rs, steps, k + 1, rs[k].now + wake.delay, wake.reason)
  {
    var wake := steps[k].wake.value;
    if wake.Release? {
      ReleasedCloses(l, rs, steps, k + 1, rs[k].now, wake.reason);
    } else if steps[k].draining {
      ReleasedCloses(l, rs, steps, k + 1, rs[k].now, DrainScheduledWakeup);
    } else {
      ArmedCloses(l, rs, steps, k + 1, rs[k].now + wake.delay, wake.reason);
    }
  }

  /** While the main loop is at work no decision closes the input, however long nothing comes. */
  lemma {:induction false} BusyStaysOpen(l: Limits, rs: seq<Run>, steps: seq<Step>, k: nat, i: nat)
    requires Decides(l, rs, steps, k) && !rs[k].tasks.quiet && k < i < |rs| && Undisturbed(steps, k + 1, i)
    ensures Open(rs[i]) && rs[i].chan.timer.None?
    decreases i
  {
    assert rs[i] == Next(l, rs[i-1], steps[i-1]);
    if k + 1 < i { BusyStaysOpen(l, rs, steps, k, i - 1); }
  }

  /** A steer queued while a close is armed holds the input for the idle ceiling from then on; queued
      while none is, it arms nothing. */
  lemma SteerQueuedCloses(l: Limits, rs: seq<Run>, steps: seq<Step>, k: nat)
    requires IsRun(l, rs, steps) && k < |steps| && steps[k].SteerQueued? && Open(rs[k])
    ensures rs[k].handling.None? && rs[k].chan.timer.Some? ==>
              ClosesAt(rs, steps, k + 1, rs[k].now + l.idleMax, SteerHoldCap)
    ensures rs[k].chan.timer.None? ==> Open(rs[k+1]) && rs[k+1].chan.timer.None?
  {
    assert rs[k+1] == Next(l, rs[k], steps[k]);
    if rs[k].handling.None? && rs[k].chan.timer.Some? {
      ArmedCloses(l, rs, steps, k + 1, rs[k].now + l.idleMax, SteerHoldCap);
    }
  }

  /** A message at whose handling a continuation became possible. */
  ghost predicate MakesPossible(rs: seq<Run>, steps: seq<Step>, k: nat)
    requires k < |steps| && k + 1 < |rs|
  {
    && steps[k].Begin?
    && (steps[k].continuation || rs[k+1].tasks.continuationExpected
        || ReportsBackground(rs[k].tasks.pending, steps[k].m))
  }

  /** A continuation is possible from the first message that makes it so, and stays possible. */
  lemma {:induction false} ContinuationPossibleExactly(l: Limits, rs: seq<Run>, steps: seq<Step>, i: nat)
    requires IsRun(l, rs, steps) && rs[0] == InputClose.Start(rs[0].now) && i < |rs|
    ensures rs[i].continuationPossible <==> exists k :: 0 <= k < i && MakesPossible(rs, steps, k)
    decreases i
  {
    if i > 0 {
      ContinuationPossibleExactly(l, rs, steps, i - 1);
      assert rs[i] == Next(l, rs[i-1], steps[i-1]);
      assert rs[i].continuationPossible <==> rs[i-1].continuationPossible || MakesPossible(rs, steps, i - 1);
    }
  }

  /** The turn is answered from the first top-level `result` on that answers it. */
  lemma {:induction false} AnsweredExactly(l: Limits, rs: seq<Run>, steps: seq<Step>, i: nat)
    requires IsRun(l, rs, steps) && rs[0] == InputClose.Start(rs[0].now) && i < |rs|
    ensures rs[i].answered <==> exists k :: 0 <= k < i && WeighsAt(rs, steps, k) && steps[k].answers
    decreases i
  {
    if i > 0 {
      AnsweredExactly(l, rs, steps, i - 1);
      assert rs[i] == Next(l, rs[i-1], steps[i-1]);
      assert rs[i].answered <==> rs[i-1].answered || (WeighsAt(rs, steps, i - 1) && steps[i-1].answers);
    }
  }
}
