/** Models the discovery lock of server/agy-cli.js: a promise chain that serialises fresh runs from
    their snapshot of the brain directory until a new brain id is bound. `runs` lists the fresh
    runs in the order in which they asked for the lock; each step is one atomic block. */
module Discovery {
  import opened Common

  /** A brain id; only identity matters. */
  type Id = nat

  datatype Phase = Waiting | Entered | Snapped

  /** `released` says that the run has resolved its own link of the chain. */
  datatype Run = Run(phase: Phase, prior: set<Id>, bound: Option<Id>, released: bool)

  datatype State = State(dir: set<Id>, runs: seq<Run>)

  /** `seen` and `listing` are what a directory read returned: a failed read returns nothing. */
  datatype Step =
    | Acquire
    | Enter(i: nat)
    | Snapshot(i: nat, seen: set<Id>)
    | Attempt(i: nat, listing: seq<Id>)
    | Release(i: nat)
    | Grow(ids: set<Id>)

  const START := State({}, [])

  function FirstNew(listing: seq<Id>, prior: set<Id>): (r: Option<Id>)
    ensures r.None? <==> forall k :: 0 <= k < |listing| ==> listing[k] in prior
    ensures r.Some? ==> r.value in listing && r.value !in prior
  {
    if listing == [] then None
    else if listing[0] !in prior then Some(listing[0])
    else FirstNew(listing[1..], prior)
  }

  predicate Enabled(s: State, step: Step) {
    match step
    case Acquire => true
    case Enter(i) => i < |s.runs| && s.runs[i].phase == Waiting && (i == 0 || s.runs[i-1].released)
    case Snapshot(i, seen) => i < |s.runs| && s.runs[i].phase == Entered && seen <= s.dir
    case Attempt(i, listing) =>
      i < |s.runs| && s.runs[i].phase == Snapped && forall k :: 0 <= k < |listing| ==> listing[k] in s.dir
    case Release(i) => i < |s.runs| && s.runs[i].phase != Waiting
    case Grow(_) => true
  }

  function Next(s: State, step: Step): State
    requires Enabled(s, step)
  {
    match step
    case Acquire => s.(runs := s.runs + [Run(Waiting, {}, None, false)])
    case Enter(i) => s.(runs := s.runs[i := s.runs[i].(phase := Entered)])
    case Snapshot(i, seen) => s.(runs := s.runs[i := s.runs[i].(phase := Snapped, prior := seen)])
    case Attempt(i, listing) =>
      if s.runs[i].bound.Some? then s
      else s.(runs := s.runs[i := s.runs[i].(bound := FirstNew(listing, s.runs[i].prior))])
    case Release(i) => s.(runs := s.runs[i := s.runs[i].(released := true)])
    case Grow(ids) => s.(dir := s.dir + ids)
  }

  /** The module variable `agyDiscoveryChain` and the locals of the fresh runs. */
  class DiscoveryChain {
    var runs: seq<Run>

    constructor ()
      ensures runs == START.runs
    {
      runs := [];
    }

    method AcquireDiscoveryLock(ghost dir: set<Id>) returns (ticket: nat)
      modifies this
      ensures State(dir, runs) == Next(State(dir, old(runs)), Acquire) && ticket == old(|runs|)
    {
      ticket := |runs|;
      runs := runs + [Run(Waiting, {}, None, false)];
    }

    method FreeDiscoveryLock(ghost dir: set<Id>, i: nat)
      requires Enabled(State(dir, runs), Release(i))
      modifies this
      ensures State(dir, runs) == Next(State(dir, old(runs)), Release(i))
    {
      if !runs[i].released { runs := runs[i := runs[i].(released := true)]; }
    }

    /** `discoverAndRegisterBrainSession`: binds the first listed id missing from the snapshot. */
    method DiscoverAndRegister(ghost dir: set<Id>, i: nat, listing: seq<Id>)
      requires Enabled(State(dir, runs), Attempt(i, listing))
      modifies this
      ensures State(dir, runs) == Next(State(dir, old(runs)), Attempt(i, listing))
    {
      if runs[i].bound.Some? { return; }
      var k := 0;
      while k < |listing| && listing[k] in runs[i].prior
        invariant 0 <= k <= |listing|
        invariant runs == old(runs)
        invariant FirstNew(listing, runs[i].prior) == FirstNew(listing[k..], runs[i].prior)
      {
        k := k + 1;
      }
      if k < |listing| { runs := runs[i := runs[i].(bound := Some(listing[k]))]; }
    }
  }

  // ---------------------------------------------------------------- runs of the system

  ghost predicate Follows(ss: seq<State>, steps: seq<Step>) {
    && |ss| == |steps| + 1
    && forall i :: 0 <= i < |steps| ==> Enabled(ss[i], steps[i]) && ss[i+1] == Next(ss[i], steps[i])
  }

  ghost predicate IsRun(ss: seq<State>, steps: seq<Step>) { Follows(ss, steps) && ss[0] == START }

  /** A run has entered only after every run before it entered and released. */
  predicate Ordered(s: State) {
    && (forall j: nat :: j < |s.runs| && s.runs[j].released ==> s.runs[j].phase != Waiting)
    && (forall i: nat, j: nat :: i < j < |s.runs| && s.runs[j].phase != Waiting ==> s.runs[i].released)
  }

  /** The run is in the guarded window. */
  predicate Inside(run: Run) { run.phase != Waiting && !run.released }

  /** Snapshots hold directory entries, and a bound id is a directory entry missing from them. */
  predicate BoundOk(s: State) {
    forall i: nat :: i < |s.runs| ==>
      && s.runs[i].prior <= s.dir
      && (s.runs[i].bound.Some? ==>
            s.runs[i].phase == Snapped && s.runs[i].bound.value in s.dir && s.runs[i].bound.value !in s.runs[i].prior)
  }

  /** The later run's snapshot already shows what the earlier run bound. */
  predicate Seen(a: Run, b: Run) { a.bound.Some? && b.phase == Snapped ==> a.bound.value in b.prior }

  predicate LaterSeesEarlier(s: State) {
    forall i: nat, j: nat :: i < j < |s.runs| ==> Seen(s.runs[i], s.runs[j])
  }

  /** An attempt that may still bind although the run has already let the next one in. */
  predicate Late(s: State, step: Step)
    requires Enabled(s, step)
  {
    step.Attempt? && s.runs[step.i].released && s.runs[step.i].bound.None?
  }

  /** The condition under which ids stay distinct: no late attempt, no incomplete snapshot. */
  predicate Guarded(s: State, step: Step)
    requires Enabled(s, step)
  {
    !Late(s, step) && (step.Snapshot? ==> step.seen == s.dir)
  }

  predicate Collision(s: State, i: nat) {
    i < |s.runs| && s.runs[i].bound.Some?
    && exists j: nat :: j < |s.runs| && j != i && s.runs[i].bound == s.runs[j].bound
  }

  lemma OrderStep(s: State, step: Step)
    requires Ordered(s) && BoundOk(s) && Enabled(s, step)
    ensures Ordered(Next(s, step)) && BoundOk(Next(s, step))
  {
  }

  lemma SeenStep(s: State, step: Step)
    requires Ordered(s) && BoundOk(s) && LaterSeesEarlier(s) && Enabled(s, step) && Guarded(s, step)
    ensures LaterSeesEarlier(Next(s, step))
  {
  }

  lemma {:induction false} OrderAlong(ss: seq<State>, steps: seq<Step>, n: nat)
    requires IsRun(ss, steps) && n < |ss|
    ensures Ordered(ss[n]) && BoundOk(ss[n])
    decreases n
  {
    if n > 0 {
      OrderAlong(ss, steps, n - 1);
      OrderStep(ss[n-1], steps[n-1]);
    }
  }

  lemma {:induction false} SeenAlong(ss: seq<State>, steps: seq<Step>, n: nat)
    requires IsRun(ss, steps) && n < |ss|
    requires forall m: nat :: m < |steps| ==> Guarded(ss[m], steps[m])
    ensures LaterSeesEarlier(ss[n])
    decreases n
  {
    if n > 0 {
      SeenAlong(ss, steps, n - 1);
      OrderAlong(ss, steps, n - 1);
      SeenStep(ss[n-1], steps[n-1]);
    }
  }

  /** Fresh runs enter in the order in which they asked, one at a time. */
  lemma EnterInOrderOneAtATime(ss: seq<State>, steps: seq<Step>, n: nat, i: nat, j: nat)
    requires IsRun(ss, steps) && n < |ss| && i < |ss[n].runs| && j < |ss[n].runs|
    ensures i < j && ss[n].runs[j].phase != Waiting ==> ss[n].runs[i].phase != Waiting && ss[n].runs[i].released
    ensures Inside(ss[n].runs[i]) && Inside(ss[n].runs[j]) ==> i == j
  {
    OrderAlong(ss, steps, n);
  }

  /** No run ever binds an id of its own snapshot. */
  lemma NeverBindsOwnSnapshot(ss: seq<State>, steps: seq<Step>, n: nat, i: nat)
    requires IsRun(ss, steps) && n < |ss| && i < |ss[n].runs| && ss[n].runs[i].bound.Some?
    ensures ss[n].runs[i].bound.value in ss[n].dir && ss[n].runs[i].bound.value !in ss[n].runs[i].prior
  {
    OrderAlong(ss, steps, n);
  }

  /** While every attempt comes before the run's own release and every snapshot is complete, no two
      fresh runs bind the same id. */
  lemma GuardedRunsBindDistinctIds(ss: seq<State>, steps: seq<Step>, n: nat, i: nat, j: nat)
    requires IsRun(ss, steps) && n < |ss| && i < j < |ss[n].runs|
    requires forall m: nat :: m < |steps| ==> Guarded(ss[m], steps[m])
    requires ss[n].runs[i].bound.Some? && ss[n].runs[j].bound.Some?
    ensures ss[n].runs[i].bound != ss[n].runs[j].bound
  {
    SeenAlong(ss, steps, n);
    OrderAlong(ss, steps, n);
    assert Seen(ss[n].runs[i], ss[n].runs[j]);
  }

  // ---------------------------------------------------------------- the guard is necessary

  ghost predicate AllGuarded(ss: seq<State>, steps: seq<Step>)
    requires Follows(ss, steps)
  {
    forall m: nat :: m < |steps| ==> Guarded(ss[m], steps[m])
  }

  lemma Chained(a: seq<State>, x: seq<Step>, b: seq<State>, y: seq<Step>)
    requires Follows(a, x) && AllGuarded(a, x) && Follows(b, y) && AllGuarded(b, y) && a[|x|] == b[0]
    ensures Follows(a + b[1..], x + y) && AllGuarded(a + b[1..], x + y)
    ensures (a + b[1..])[0] == a[0] && (a + b[1..])[|x + y|] == b[|y|]
  {
    var ss, steps := a + b[1..], x + y;
    forall m: nat | m < |steps|
      ensures Enabled(ss[m], steps[m]) && ss[m+1] == Next(ss[m], steps[m]) && Guarded(ss[m], steps[m])
    {
      if m >= |x| { assert ss[m] == b[m-|x|] && steps[m] == y[m-|x|] && ss[m+1] == b[m+1-|x|]; }
    }
  }

  /** The runs before `k` are out, and nobody has lost or won anything. */
  predicate LetOut(s: State, t: State, k: nat) {
    && t.dir == s.dir && |t.runs| == |s.runs| && Ordered(t)
    && (forall j: nat :: j < |t.runs| ==>
          && t.runs[j].bound == s.runs[j].bound && t.runs[j].prior == s.runs[j].prior
          && (j < k ==> t.runs[j].released) && (s.runs[j].released ==> t.runs[j] == s.runs[j])
          && (s.runs[j].phase == Snapped ==> t.runs[j].phase == Snapped))
  }

  /** Run `k` is let in, if it waits, and lets the next one in. */
  lemma LetRunOut(s: State, t: State, k: nat) returns (ss: seq<State>, steps: seq<Step>)
    requires LetOut(s, t, k) && k < |t.runs|
    ensures Follows(ss, steps) && ss[0] == t && AllGuarded(ss, steps) && LetOut(s, ss[|steps|], k + 1)
  {
    var t1 := if t.runs[k].phase == Waiting then Next(t, Enter(k)) else t;
    var t2 := Next(t1, Release(k));
    if t.runs[k].phase == Waiting {
      ss, steps := [t, t1, t2], [Enter(k), Release(k)];
    } else {
      ss, steps := [t, t2], [Release(k)];
    }
  }

  lemma {:induction false} DrainFrom(s: State, t: State, k: nat) returns (ss: seq<State>, steps: seq<Step>)
    requires LetOut(s, t, k) && k <= |t.runs|
    ensures Follows(ss, steps) && ss[0] == t && AllGuarded(ss, steps) && LetOut(s, ss[|steps|], |t.runs|)
    decreases |t.runs| - k
  {
    if k == |t.runs| { return [t], []; }
    var a, x := LetRunOut(s, t, k);
    var b, y := DrainFrom(s, a[|x|], k + 1);
    Chained(a, x, b, y);
    ss, steps := a + b[1..], x + y;
  }

  lemma FreshId(dir: set<Id>) returns (id: Id)
    ensures id !in dir
  {
    id := 0;
    ghost var rest := dir;
    while exists x :: x in rest && x >= id
      invariant rest <= dir && forall x :: x in dir && x !in rest ==> x < id
      decreases |rest|
    {
      var x :| x in rest && x >= id;
      rest, id := rest - {x}, x + 1;
    }
  }

  /** A new run enters after all others, snapshots, and binds the id that then appears. */
  lemma NewRunBinds(s: State, id: Id) returns (ss: seq<State>, steps: seq<Step>)
    requires BoundOk(s) && id !in s.dir && forall j: nat :: j < |s.runs| ==> s.runs[j].released
    ensures Follows(ss, steps) && ss[0] == s && AllGuarded(ss, steps)
    ensures var t := ss[|steps|];
            && id in t.dir && |t.runs| == |s.runs| + 1 && t.runs[..|s.runs|] == s.runs
            && t.runs[|s.runs|].bound == Some(id)
  {
    var n := |s.runs|;
    steps := [Acquire, Enter(n), Snapshot(n, s.dir), Grow({id}), Attempt(n, [id])];
    var s1 := Next(s, Acquire);
    var s2 := Next(s1, Enter(n));
    var s3 := Next(s2, Snapshot(n, s.dir));
    var s4 := Next(s3, Grow({id}));
    ss := [s, s1, s2, s3, s4, Next(s4, Attempt(n, [id]))];
  }

  /** Two runs that miss the same entry of the directory and may both attempt bind it both. */
  lemma LateBinds(s: State, i: nat, j: nat, id: Id)
    requires i < |s.runs| && j < |s.runs| && i != j && id in s.dir && id !in s.runs[i].prior
    requires s.runs[i].phase == Snapped && s.runs[i].released && s.runs[i].bound.None? && s.runs[j].bound == Some(id)
    ensures Enabled(s, Attempt(i, [id])) && Late(s, Attempt(i, [id])) && Collision(Next(s, Attempt(i, [id])), i)
  {
    var t := Next(s, Attempt(i, [id]));
    assert t.runs[i].bound == Some(id) == t.runs[j].bound;
  }

  /** The condition cannot be dropped: from every reachable state in which some run has released
      its link unbound (the `error` handler does that) and can still attempt (the `close` handler
      does), guarded steps followed by that one late attempt make two runs bind the same id. */
  lemma LateAttemptCanCollide(before: seq<State>, past: seq<Step>, i: nat)
      returns (ss: seq<State>, steps: seq<Step>, id: Id)
    requires IsRun(before, past)
    requires var s := before[|past|];
             i < |s.runs| && s.runs[i].phase == Snapped && s.runs[i].released && s.runs[i].bound.None?
    ensures Follows(ss, steps) && ss[0] == before[|past|] && AllGuarded(ss, steps)
    ensures Enabled(ss[|steps|], Attempt(i, [id])) && Late(ss[|steps|], Attempt(i, [id]))
    ensures Collision(Next(ss[|steps|], Attempt(i, [id])), i)
  {
    var s := before[|past|];
    OrderAlong(before, past, |past|);
    var a, x := DrainFrom(s, s, 0);
    var mid := a[|x|];
    id := FreshId(mid.dir);
    var b, y := NewRunBinds(mid, id);
    Chained(a, x, b, y);
    ss, steps := a + b[1..], x + y;
    assert b[|y|].runs[i] == b[|y|].runs[..|s.runs|][i] == mid.runs[i];
    LateBinds(b[|y|], i, |s.runs|, id);
  }

  /** A new run whose directory read fails enters after all others with an empty snapshot. */
  lemma BlindRunEnters(s: State, i: nat, id: Id) returns (ss: seq<State>, steps: seq<Step>)
    requires i < |s.runs| && s.runs[i].bound == Some(id) && id in s.dir
    requires forall j: nat :: j < |s.runs| ==> s.runs[j].released
    ensures Follows(ss, steps) && ss[0] == s
    ensures steps == [Acquire, Enter(|s.runs|), Snapshot(|s.runs|, {}), Attempt(|s.runs|, [id])]
    ensures forall m: nat :: m < |steps| && m != 2 ==> Guarded(ss[m], steps[m])
    ensures Collision(ss[4], i)
  {
    var n := |s.runs|;
    steps := [Acquire, Enter(n), Snapshot(n, {}), Attempt(n, [id])];
    var s1 := Next(s, Acquire);
    var s2 := Next(s1, Enter(n));
    var s3 := Next(s2, Snapshot(n, {}));
    ss := [s, s1, s2, s3, Next(s3, Attempt(n, [id]))];
    assert ss[4].runs[n].bound == Some(id) == ss[4].runs[i].bound;
  }

  /** Complete snapshots cannot be dispensed with either: a directory read that fails counts as an
      empty directory, and from every reachable state in which some run has bound an id, guarded
      steps and one such snapshot make a second run bind it. */
  lemma IncompleteSnapshotCanCollide(before: seq<State>, past: seq<Step>, i: nat)
      returns (ss: seq<State>, steps: seq<Step>, blind: nat)
    requires IsRun(before, past)
    requires var s := before[|past|]; i < |s.runs| && s.runs[i].bound.Some?
    ensures Follows(ss, steps) && ss[0] == before[|past|] && Collision(ss[|steps|], i)
    ensures blind < |steps| && steps[blind].Snapshot? && steps[blind].seen == {}
    ensures forall m: nat :: m < |steps| && m != blind ==> Guarded(ss[m], steps[m])
  {
    var s := before[|past|];
    OrderAlong(before, past, |past|);
    var a, x := DrainFrom(s, s, 0);
    var b, y := BlindRunEnters(a[|x|], i, s.runs[i].bound.value);
    ss, steps, blind := a + b[1..], x + y, |x| + 2;
    forall m: nat | m < |steps|
      ensures Enabled(ss[m], steps[m]) && ss[m+1] == Next(ss[m], steps[m]) && (m != blind ==> Guarded(ss[m], steps[m]))
    {
      if m >= |x| { assert ss[m] == b[m-|x|] && steps[m] == y[m-|x|] && ss[m+1] == b[m+1-|x|]; }
    }
  }

  // ---------------------------------------------------------------- who waits forever

  /** An infinite run; a system with nothing left to do grows the directory by nothing. */
  ghost predicate RunsOn(ss: nat -> State, steps: nat -> Step) {
    ss(0) == START && forall n: nat :: Enabled(ss(n), steps(n)) && ss(n + 1) == Next(ss(n), steps(n))
  }

  /** The runtime: from no moment on is the continuation of a resolved link put off forever. */
  ghost predicate Fair(ss: nat -> State) {
    forall n: nat, j: nat :: NotPutOff(ss, n, j)
  }

  ghost predicate NotPutOff(ss: nat -> State, n: nat, j: nat) {
    exists m: nat :: n <= m && !Enabled(ss(m), Enter(j))
  }

  predicate Waits(s: State, j: nat) { j < |s.runs| && s.runs[j].phase == Waiting }

  predicate HasReleased(s: State, i: nat) { i < |s.runs| && s.runs[i].released }

  ghost predicate WaitsForever(ss: nat -> State, j: nat, n: nat) { forall m: nat :: n <= m ==> Waits(ss(m), j) }

  ghost predicate NeverReleases(ss: nat -> State, i: nat) { forall m: nat :: !HasReleased(ss(m), i) }

  lemma {:induction false} OrderForever(ss: nat -> State, steps: nat -> Step, n: nat)
    requires RunsOn(ss, steps)
    ensures Ordered(ss(n)) && BoundOk(ss(n))
    decreases n
  {
    if n > 0 {
      var m: nat := n - 1;
      OrderForever(ss, steps, m);
      assert ss(m + 1) == Next(ss(m), steps(m));
      OrderStep(ss(m), steps(m));
    }
  }

  /** Nobody leaves the queue, a release is never undone, and a run enters only by its own step. */
  lemma StaysAlong(s: State, step: Step, i: nat)
    requires Enabled(s, step)
    ensures |s.runs| <= |Next(s, step).runs| && (HasReleased(s, i) ==> HasReleased(Next(s, step), i))
    ensures Waits(Next(s, step), i) && i < |s.runs| ==> Waits(s, i)
  {
  }

  lemma {:induction false} StaysReleased(ss: nat -> State, steps: nat -> Step, i: nat, n: nat, m: nat)
    requires RunsOn(ss, steps) && n <= m
    ensures HasReleased(ss(n), i) ==> HasReleased(ss(m), i)
    decreases m - n
  {
    if n < m {
      var k: nat := m - 1;
      StaysReleased(ss, steps, i, n, k);
      assert ss(k + 1) == Next(ss(k), steps(k));
      StaysAlong(ss(k), steps(k), i);
    }
  }

  lemma {:induction false} StaysQueued(ss: nat -> State, steps: nat -> Step, j: nat, n: nat, m: nat)
    requires RunsOn(ss, steps) && n <= m && j < |ss(n).runs|
    ensures j < |ss(m).runs|
    decreases m - n
  {
    if n < m {
      var k: nat := m - 1;
      StaysQueued(ss, steps, j, n, k);
      assert ss(k + 1) == Next(ss(k), steps(k));
      StaysAlong(ss(k), steps(k), j);
    }
  }

  /** In every infinite fair run, from whatever state on: a waiting run is kept waiting forever if and
      only if some run before it in the chain never releases. */
  lemma KeptWaitingExactly(ss: nat -> State, steps: nat -> Step, n: nat, j: nat)
    requires RunsOn(ss, steps) && Fair(ss) && Waits(ss(n), j)
    ensures WaitsForever(ss, j, n) <==> exists i: nat :: i < j && NeverReleases(ss, i)
  {
    if WaitsForever(ss, j, n) {
      BlockedByPredecessor(ss, steps, n, j);
    }
    if i: nat :| i < j && NeverReleases(ss, i) {
      forall m: nat | n <= m ensures Waits(ss(m), j) {
        StaysQueued(ss, steps, j, n, m);
        OrderForever(ss, steps, m);
        assert !HasReleased(ss(m), i);
      }
    }
  }

  /** The run right before one that waits forever never releases. */
  lemma BlockedByPredecessor(ss: nat -> State, steps: nat -> Step, n: nat, j: nat)
    requires RunsOn(ss, steps) && Fair(ss) && WaitsForever(ss, j, n)
    ensures j > 0 && NeverReleases(ss, j - 1)
  {
    var _ := NotDue(ss, n, j, n);
    forall r: nat ensures !HasReleased(ss(r), j - 1) {
      var m := NotDue(ss, n, j, r);
      StaysReleased(ss, steps, j - 1, r, m);
    }
  }

  /** However late, there is a moment at which the run before a waiting one has not released. */
  lemma NotDue(ss: nat -> State, n: nat, j: nat, r: nat) returns (m: nat)
    requires Fair(ss) && WaitsForever(ss, j, n)
    ensures r <= m && j > 0 && !HasReleased(ss(m), j - 1)
  {
    var late: nat := if n < r then r else n;
    assert NotPutOff(ss, late, j);
    m :| late <= m && !Enabled(ss(m), Enter(j));
    assert Waits(ss(m), j);
  }

  const Idle := Grow({})

  function StalledStep(n: nat): Step { if n < 2 then Acquire else if n == 2 then Enter(0) else Idle }

  function StalledAt(n: nat): State {
    var queued := Run(Waiting, {}, None, false);
    if n == 0 then START
    else if n == 1 then State({}, [queued])
    else if n == 2 then State({}, [queued, queued])
    else State({}, [queued.(phase := Entered), queued])
  }

  /** Such a run: the first holder takes no step after it entered (an await before its spawn threw, and
      nothing frees the lock), and the second fresh run waits forever. */
  lemma ThrowBeforeSpawnStalls() returns (ss: nat -> State, steps: nat -> Step)
    ensures RunsOn(ss, steps) && Fair(ss) && WaitsForever(ss, 1, 2) && NeverReleases(ss, 0)
    ensures forall n: nat :: n > 2 ==> steps(n) == Idle
  {
    ss, steps := StalledAt, StalledStep;
    forall n: nat ensures Enabled(ss(n), steps(n)) && ss(n + 1) == Next(ss(n), steps(n)) {
      var none: set<Id> := {};
      assert none + {} == none;
    }
    forall n: nat, j: nat ensures NotPutOff(ss, n, j) {
      var m: nat := n + 3;
      assert !Enabled(ss(m), Enter(j));
    }
  }
}
