/** What one run gets from the locks of `CodexLocks`, whatever the other runs do meanwhile. */
module CodexRuns {
  import opened Common
  import opened CodexLocks

  /** From state `a` to state `i` no step is `step`. */
  predicate NoneOf(steps: seq<Step>, a: nat, i: nat, step: Step)
    requires i <= |steps|
  {
    forall k :: a <= k < i ==> steps[k] != step
  }

  lemma {:induction false} KeyIsKept(ss: seq<State>, steps: seq<Step>, a: nat, i: nat, r: RunId, id: Id)
    requires IsRun(ss, steps) && a <= i < |ss| && NoneOf(steps, a, i, End(r))
    requires r in ss[a].runs && Resumes(ss[a].runs[r], id)
    ensures r in ss[i].runs && Resumes(ss[i].runs[r], id)
    decreases i
  {
    if a < i {
      KeyIsKept(ss, steps, a, i - 1, r, id);
      assert ss[i] == Next(ss[i-1], steps[i-1]);
    }
  }

  /** Resuming a session starts exactly when nobody holds its lock; the run then holds it until its last
      step. A refused one is over at once and leaves everything else as it was. */
  lemma ResumeHoldsTheLock(ss: seq<State>, steps: seq<Step>, a: nat, i: nat)
    requires IsRun(ss, steps) && a < i < |ss| && steps[a].Query? && steps[a].sessionId != ""
    requires NoneOf(steps, a, i, End(steps[a].r))
    ensures var r, id := steps[a].r, steps[a].sessionId;
            if id in ss[a].locks then
              ss[a+1].locks == ss[a].locks && ss[a+1].sessions == ss[a].sessions && InPhase(ss[a+1], r, Ended)
            else
              id in ss[i].locks && r in ss[i].runs && Owns(ss[i].runs[r], id)
  {
    var r, id := steps[a].r, steps[a].sessionId;
    assert ss[a+1] == Next(ss[a], steps[a]);
    if id !in ss[a].locks {
      KeyIsKept(ss, steps, a + 1, i, r, id);
      LockHasOneOwner(ss, steps, i, id);
    }
  }

  /** Run `r` is in its body, has captured `id` and is listed as running it. */
  predicate Runs(s: State, r: RunId, id: Id) {
    InPhase(s, r, Body) && s.runs[r].captured == Some(id) && id in s.sessions && s.sessions[id] == Session(r, true)
  }

  lemma RunsStep(s: State, step: Step, r: RunId, id: Id)
    requires Inv(s) && Enabled(s, step) && Runs(s, r, id) && step != Drain(r) && step != Abort(id)
    ensures Runs(Next(s, step), r, id)
  {
    assert RunOk(s.runs[r]) && Owns(s.runs[r], id) && OwnedLocked(s, s.runs[r]);
    if (step.Register? || step.Drain? || step.ThreadStarted?) && step.r != r {
      assert RunOk(s.runs[step.r]) && NoneShared(s.runs[r], s.runs[step.r]);
    }
  }

  lemma {:induction false} StaysListed(ss: seq<State>, steps: seq<Step>, a: nat, i: nat, r: RunId, id: Id)
    requires IsRun(ss, steps) && a <= i < |ss| && Runs(ss[a], r, id)
    requires NoneOf(steps, a, i, Drain(r)) && NoneOf(steps, a, i, Abort(id))
    ensures Runs(ss[i], r, id)
    decreases i
  {
    if a < i {
      StaysListed(ss, steps, a, i - 1, r, id);
      InvAlong(ss, steps, i - 1);
      RunsStep(ss[i-1], steps[i-1], r, id);
    }
  }

  /** A run in its body that registers the session it captured is listed as running it until its inner
      finally or an abort. */
  lemma RegisteredIsListed(ss: seq<State>, steps: seq<Step>, a: nat, i: nat, id: Id)
    requires IsRun(ss, steps) && a < i < |ss| && steps[a].Register? && steps[a].r in ss[a].runs
    requires ss[a].runs[steps[a].r].captured == Some(id)
    requires NoneOf(steps, a, i, Drain(steps[a].r)) && NoneOf(steps, a, i, Abort(id))
    ensures id in ss[i].sessions && ss[i].sessions[id] == Session(steps[a].r, true)
  {
    assert Enabled(ss[a], steps[a]) && ss[a+1] == Next(ss[a], steps[a]);
    StaysListed(ss, steps, a + 1, i, steps[a].r, id);
  }

  /** A run captures what it resumed as it enters its body, unless its home is another one. */
  lemma BodyCapturesResumed(ss: seq<State>, steps: seq<Step>, a: nat, k: nat)
    requires IsRun(ss, steps) && a < k < |steps| && steps[a].Query? && steps[k].EnterBody? && steps[k].r == steps[a].r
    requires steps[a].sessionId != "" && steps[a].sessionId !in ss[a].locks && NoneOf(steps, a, k, End(steps[a].r))
    ensures steps[a].r in ss[k+1].runs
    ensures ss[k+1].runs[steps[a].r].captured == if steps[k].crossHome then None else Some(steps[a].sessionId)
  {
    assert ss[a+1] == Next(ss[a], steps[a]) && ss[k+1] == Next(ss[k], steps[k]);
    KeyIsKept(ss, steps, a + 1, k, steps[a].r, steps[a].sessionId);
  }

  /** A new thread's id is reserved and listed as running, when nobody holds it, the run has captured
      nothing yet and the id can be bound. */
  lemma NewThreadIsListed(ss: seq<State>, steps: seq<Step>, a: nat, i: nat)
    requires IsRun(ss, steps) && a < i < |ss| && steps[a].ThreadStarted? && steps[a].id != "" && !steps[a].bindFails
    requires steps[a].r in ss[a].runs && ss[a].runs[steps[a].r].captured.None? && steps[a].id !in ss[a].locks
    requires NoneOf(steps, a, i, Drain(steps[a].r)) && NoneOf(steps, a, i, Abort(steps[a].id))
    ensures var r, id := steps[a].r, steps[a].id;
            id in ss[i].locks && id in ss[i].sessions && ss[i].sessions[id] == Session(r, true)
  {
    assert Enabled(ss[a], steps[a]) && ss[a+1] == Next(ss[a], steps[a]);
    StaysListed(ss, steps, a + 1, i, steps[a].r, steps[a].id);
    ListedBelongsToHolder(ss, steps, i, steps[a].id);
  }
}
