/** Models the turn locks of server/openai-codex.js. A lock is taken by resuming a session
    (`queryCodex`) or by reserving the id of a new thread (`queryCodexOwned`), and given up in the
    two finally blocks. Every step is one synchronous block; any step of another run may come
    between two steps of a run, and any await may throw. */
module CodexLocks {
  import opened Common

  type Id = string
  type RunId = nat

  /** `Preflight` up to the inner try, `Body` inside it, `Drained` after the inner finally, `Torn`
      after the outer finally, `Ended` once the resume lock is released too. */
  datatype Phase = Preflight | Body | Drained | Torn | Ended

  /** The locals of one `queryCodex` activation. */
  datatype Run = Run(resumeKey: Option<Id>, captured: Option<Id>, reserved: Option<Id>, phase: Phase)

  datatype Session = Session(run: RunId, running: bool)

  datatype State = State(locks: set<Id>, sessions: map<Id, Session>, runs: map<RunId, Run>)

  datatype Step =
    | Query(r: RunId, sessionId: Id)
    | EnterBody(r: RunId, crossHome: bool)
    | Register(r: RunId)
    | ThreadStarted(r: RunId, id: Id, bindFails: bool)
    | Abort(id: Id)
    | Sweep(id: Id)
    | Drain(r: RunId)
    | Tear(r: RunId)
    | End(r: RunId)

  predicate InPhase(s: State, r: RunId, phase: Phase) { r in s.runs && s.runs[r].phase == phase }

  predicate Enabled(s: State, step: Step) {
    match step
    case Query(r, _) => r !in s.runs
    case EnterBody(r, _) => InPhase(s, r, Preflight)
    case Register(r) => InPhase(s, r, Body)
    case ThreadStarted(r, _, _) => InPhase(s, r, Body)
    case Abort(id) => id in s.sessions
    case Sweep(id) => id in s.sessions && !s.sessions[id].running
    case Drain(r) => InPhase(s, r, Body)
    case Tear(r) => InPhase(s, r, Preflight) || InPhase(s, r, Drained)
    case End(r) => InPhase(s, r, Torn)
  }

  predicate Refused(s: State, sessionId: Id) { sessionId != "" && sessionId in s.locks }

  /** The new thread's id is already locked: the run throws. */
  predicate Collides(s: State, r: RunId, id: Id)
    requires r in s.runs
  {
    id != "" && s.runs[r].captured.None? && id in s.locks
  }

  function Released(locks: set<Id>, id: Option<Id>): set<Id> {
    if id.Some? then locks - {id.value} else locks
  }

  function Next(s: State, step: Step): State
    requires Enabled(s, step)
  {
    match step
    case Query(r, sessionId) =>
      if Refused(s, sessionId) then s.(runs := s.runs[r := Run(None, None, None, Ended)])
      else if sessionId == "" then s.(runs := s.runs[r := Run(None, None, None, Preflight)])
      else s.(locks := s.locks + {sessionId}, runs := s.runs[r := Run(Some(sessionId), None, None, Preflight)])
    case EnterBody(r, crossHome) =>
      var run := s.runs[r];
      s.(runs := s.runs[r := run.(phase := Body, captured := if crossHome then None else run.resumeKey)])
    case Register(r) =>
      var run := s.runs[r];
      if run.captured.Some? then s.(sessions := s.sessions[run.captured.value := Session(r, true)]) else s
    case ThreadStarted(r, id, bindFails) =>
      var run := s.runs[r];
      if id == "" || run.captured.Some? || id in s.locks || bindFails then s
      else s.(locks := s.locks + {id}, sessions := s.sessions[id := Session(r, true)],
              runs := s.runs[r := run.(reserved := Some(id), captured := Some(id))])
    case Abort(id) => s.(sessions := s.sessions[id := s.sessions[id].(running := false)])
    case Sweep(id) => s.(sessions := s.sessions - {id})
    case Drain(r) =>
      var run := s.runs[r];
      s.(runs := s.runs[r := run.(phase := Drained)],
         sessions := if run.captured.Some? then s.sessions - {run.captured.value} else s.sessions)
    case Tear(r) =>
      s.(locks := Released(s.locks, s.runs[r].reserved), runs := s.runs[r := s.runs[r].(phase := Torn)])
    case End(r) =>
      s.(locks := Released(s.locks, s.runs[r].resumeKey), runs := s.runs[r := s.runs[r].(phase := Ended)])
  }

  class TurnLocks {
    var locks: set<Id>
    var sessions: map<Id, Session>
    var runs: map<RunId, Run>

    function Abs(): State
      reads this
    {
      State(locks, sessions, runs)
    }

    constructor ()
      ensures Abs() == State({}, map[], map[])
    {
      locks, sessions, runs := {}, map[], map[];
    }

    method QueryCodex(r: RunId, sessionId: Id) returns (started: bool)
      requires Enabled(Abs(), Query(r, sessionId))
      modifies this
      ensures Abs() == Next(old(Abs()), Query(r, sessionId)) && started == !Refused(old(Abs()), sessionId)
    {
      var lockKey := if sessionId != "" then Some(sessionId) else None;
      if lockKey.Some? && lockKey.value in locks {
        runs := runs[r := Run(None, None, None, Ended)];
        return false;
      }
      if lockKey.Some? { locks := locks + {lockKey.value}; }
      runs := runs[r := Run(lockKey, None, None, Preflight)];
      return true;
    }

    method RegisterSession(r: RunId)
      requires Enabled(Abs(), Register(r))
      modifies this
      ensures Abs() == Next(old(Abs()), Register(r))
    {
      if runs[r].captured.Some? { sessions := sessions[runs[r].captured.value := Session(r, true)]; }
    }

    /** The `thread.started` event; `collided` is the thrown collision. */
    method OnThreadStarted(r: RunId, id: Id, bindFails: bool) returns (collided: bool)
      requires Enabled(Abs(), ThreadStarted(r, id, bindFails))
      modifies this
      ensures Abs() == Next(old(Abs()), ThreadStarted(r, id, bindFails))
      ensures collided == Collides(old(Abs()), r, id)
    {
      var run := runs[r];
      if id == "" || run.captured.Some? { return false; }
      if id in locks { return true; }
      if bindFails { return false; }
      locks := locks + {id};
      sessions := sessions[id := Session(r, true)];
      runs := runs[r := run.(reserved := Some(id), captured := Some(id))];
      return false;
    }

    method AbortCodexSession(id: Id) returns (found: bool)
      modifies this
      ensures found == Enabled(old(Abs()), Abort(id))
      ensures Abs() == if found then Next(old(Abs()), Abort(id)) else old(Abs())
    {
      if id !in sessions { return false; }
      sessions := sessions[id := sessions[id].(running := false)];
      return true;
    }

    method InnerFinally(r: RunId)
      requires Enabled(Abs(), Drain(r))
      modifies this
      ensures Abs() == Next(old(Abs()), Drain(r))
    {
      var run := runs[r];
      if run.captured.Some? { sessions := sessions - {run.captured.value}; }
      runs := runs[r := run.(phase := Drained)];
    }

    method OuterFinally(r: RunId)
      requires Enabled(Abs(), Tear(r))
      modifies this
      ensures Abs() == Next(old(Abs()), Tear(r))
    {
      var run := runs[r];
      if run.reserved.Some? { locks := locks - {run.reserved.value}; }
      runs := runs[r := run.(phase := Torn)];
    }

    method ReleaseResumeLock(r: RunId)
      requires Enabled(Abs(), End(r))
      modifies this
      ensures Abs() == Next(old(Abs()), End(r))
    {
      var run := runs[r];
      if run.resumeKey.Some? { locks := locks - {run.resumeKey.value}; }
      runs := runs[r := run.(phase := Ended)];
    }
  }

  // ---------------------------------------------------------------- ownership

  predicate Resumes(run: Run, id: Id) { run.resumeKey == Some(id) && run.phase != Ended }

  predicate Reserves(run: Run, id: Id) { run.reserved == Some(id) && (run.phase == Body || run.phase == Drained) }

  /** The run holds the lock of `id`, by either way of acquiring it. */
  predicate Owns(run: Run, id: Id) { Resumes(run, id) || Reserves(run, id) }

  predicate RunOk(run: Run) {
    && (run.phase == Preflight ==> run.captured.None? && run.reserved.None?)
    && (run.reserved.Some? ==> run.captured == run.reserved && run.resumeKey != run.reserved)
    && (run.captured.Some? ==> run.captured == run.resumeKey || run.captured == run.reserved)
  }

  ghost predicate EachLockOwned(s: State) {
    forall id :: id in s.locks ==> exists r :: r in s.runs && Owns(s.runs[r], id)
  }

  predicate OwnersDistinct(s: State) {
    && (forall r :: r in s.runs ==> RunOk(s.runs[r]))
    && (forall r :: r in s.runs ==> OwnedLocked(s, s.runs[r]))
    && (forall r, q :: r in s.runs && q in s.runs && r != q ==> NoneShared(s.runs[r], s.runs[q]))
  }

  predicate OwnedLocked(s: State, run: Run) {
    && (run.resumeKey.Some? && Owns(run, run.resumeKey.value) ==> run.resumeKey.value in s.locks)
    && (run.reserved.Some? && Owns(run, run.reserved.value) ==> run.reserved.value in s.locks)
  }

  predicate NoneShared(a: Run, b: Run) {
    && (a.resumeKey.Some? && Owns(a, a.resumeKey.value) ==> !Owns(b, a.resumeKey.value))
    && (a.reserved.Some? && Owns(a, a.reserved.value) ==> !Owns(b, a.reserved.value))
  }

  predicate ListedOk(s: State) {
    forall id :: id in s.sessions ==>
      InPhase(s, s.sessions[id].run, Body) && s.runs[s.sessions[id].run].captured == Some(id)
  }

  ghost predicate Inv(s: State) { EachLockOwned(s) && OwnersDistinct(s) && ListedOk(s) }

  ghost predicate IsRun(ss: seq<State>, steps: seq<Step>) {
    && |ss| == |steps| + 1 && ss[0] == State({}, map[], map[])
    && forall i :: 0 <= i < |steps| ==> Enabled(ss[i], steps[i]) && ss[i+1] == Next(ss[i], steps[i])
  }

  lemma LocksStayOwned(s: State, step: Step)
    requires Inv(s) && Enabled(s, step)
    ensures EachLockOwned(Next(s, step))
  {
    var t := Next(s, step);
    forall id | id in t.locks ensures exists r :: r in t.runs && Owns(t.runs[r], id) {
      if id in s.locks {
        var r :| r in s.runs && Owns(s.runs[r], id);
        assert Owns(t.runs[r], id);
      } else {
        assert Owns(t.runs[step.r], id);
      }
    }
  }

  /** Only the run that acts changes, and it takes a lock only when nobody holds it. */
  lemma StepTouchesOneRun(s: State, step: Step, r: RunId)
    requires OwnersDistinct(s) && Enabled(s, step) && r in Next(s, step).runs
    ensures RunOk(Next(s, step).runs[r])
    ensures r in s.runs && (step.Abort? || step.Sweep? || step.r != r) ==> Next(s, step).runs[r] == s.runs[r]
    ensures forall id :: Owns(Next(s, step).runs[r], id) ==> (r in s.runs && Owns(s.runs[r], id)) || id !in s.locks
  {
    if r in s.runs { assert RunOk(s.runs[r]); }
  }

  /** A lock held after the step is in the set: it was held and kept, or has just been added. */
  lemma OwnedStaysLocked(s: State, step: Step, r: RunId)
    requires OwnersDistinct(s) && Enabled(s, step) && r in Next(s, step).runs
    ensures OwnedLocked(Next(s, step), Next(s, step).runs[r])
  {
    if r in s.runs {
      assert RunOk(s.runs[r]) && OwnedLocked(s, s.runs[r]);
      if !step.Abort? && !step.Sweep? && step.r in s.runs && step.r != r {
        assert NoneShared(s.runs[step.r], s.runs[r]);
      }
    }
  }

  lemma OwnersStayDistinct(s: State, step: Step)
    requires OwnersDistinct(s) && Enabled(s, step)
    ensures OwnersDistinct(Next(s, step))
  {
    var t := Next(s, step);
    forall r | r in t.runs ensures RunOk(t.runs[r]) && OwnedLocked(t, t.runs[r]) {
      StepTouchesOneRun(s, step, r);
      OwnedStaysLocked(s, step, r);
    }
    forall r, q | r in t.runs && q in t.runs && r != q ensures NoneShared(t.runs[r], t.runs[q]) {
      NoneSharedStep(s, step, r, q);
    }
  }

  lemma NoneSharedStep(s: State, step: Step, r: RunId, q: RunId)
    requires OwnersDistinct(s) && Enabled(s, step) && r in Next(s, step).runs && q in Next(s, step).runs && r != q
    ensures NoneShared(Next(s, step).runs[r], Next(s, step).runs[q])
  {
    StepTouchesOneRun(s, step, r);
    StepTouchesOneRun(s, step, q);
    if r in s.runs { assert OwnedLocked(s, s.runs[r]); }
    if q in s.runs { assert OwnedLocked(s, s.runs[q]); }
    if r in s.runs && q in s.runs { assert NoneShared(s.runs[r], s.runs[q]); }
  }

  lemma ListedStaysOk(s: State, step: Step)
    requires OwnersDistinct(s) && ListedOk(s) && Enabled(s, step)
    ensures ListedOk(Next(s, step))
  {
  }

  lemma InvStep(s: State, step: Step)
    requires Inv(s) && Enabled(s, step)
    ensures Inv(Next(s, step))
  {
    LocksStayOwned(s, step);
    OwnersStayDistinct(s, step);
    ListedStaysOk(s, step);
  }

  lemma {:induction false} InvAlong(ss: seq<State>, steps: seq<Step>, i: nat)
    requires IsRun(ss, steps) && i < |ss|
    ensures Inv(ss[i])
    decreases i
  {
    if i > 0 {
      InvAlong(ss, steps, i - 1);
      InvStep(ss[i-1], steps[i-1]);
    }
  }

  /** Over every interleaving: an id is locked exactly when some run that has not ended holds its
      lock, and no two runs ever hold the same one. */
  lemma LockHasOneOwner(ss: seq<State>, steps: seq<Step>, i: nat, id: Id)
    requires IsRun(ss, steps) && i < |ss|
    ensures id in ss[i].locks <==> exists r :: r in ss[i].runs && Owns(ss[i].runs[r], id)
    ensures forall r, q :: r in ss[i].runs && q in ss[i].runs && Owns(ss[i].runs[r], id) && Owns(ss[i].runs[q], id)
              ==> r == q
  {
    InvAlong(ss, steps, i);
  }

  /** A step removes at most locks its own run holds; a refused or colliding run removes none. */
  lemma StepsDeleteOnlyOwnLocks(ss: seq<State>, steps: seq<Step>, i: nat, id: Id)
    requires IsRun(ss, steps) && i < |steps| && id in ss[i].locks && id !in ss[i+1].locks
    ensures (steps[i].Tear? || steps[i].End?) && Owns(ss[i].runs[steps[i].r], id)
    ensures forall r :: r in ss[i].runs && r != steps[i].r ==> !Owns(ss[i].runs[r], id)
  {
    InvAlong(ss, steps, i);
    assert ss[i+1] == Next(ss[i], steps[i]);
  }

  /** An ended run has given up its resume lock and its reserved lock: if either id is locked, it
      is by another run that has not ended. */
  lemma EndedRunHoldsNothing(ss: seq<State>, steps: seq<Step>, i: nat, r: RunId, id: Id)
    requires IsRun(ss, steps) && i < |ss| && InPhase(ss[i], r, Ended) && id in ss[i].locks
    requires ss[i].runs[r].resumeKey == Some(id) || ss[i].runs[r].reserved == Some(id)
    ensures exists q :: q in ss[i].runs && q != r && ss[i].runs[q].phase != Ended && Owns(ss[i].runs[q], id)
  {
    InvAlong(ss, steps, i);
    var q :| q in ss[i].runs && Owns(ss[i].runs[q], id);
    assert q != r;
  }

  /** An id listed as running belongs to the run holding that id's lock. */
  lemma ListedBelongsToHolder(ss: seq<State>, steps: seq<Step>, i: nat, id: Id)
    requires IsRun(ss, steps) && i < |ss| && id in ss[i].sessions
    ensures ss[i].sessions[id].run in ss[i].runs && Owns(ss[i].runs[ss[i].sessions[id].run], id)
    ensures id in ss[i].locks
  {
    InvAlong(ss, steps, i);
  }
}
