/** The tracker refines its history: its state and its answers after any trace of messages are what
    a reader of the messages' own fields would say. Nothing below looks at the tracker's state or at
    its elementary effects except the theorems. */
module TaskHistory {
  import opened Common
  import opened TaskTracker

  /** The messages observed, each with the time it came. */
  type Trace = seq<(Message, nat)>

  function Initial(createdAt: nat): State { State(map[], false, false, createdAt) }

  /** The tracker after the first `n` messages. */
  function After(createdAt: nat, ms: Trace, n: nat): State
    requires n <= |ms|
  {
    if n == 0 then Initial(createdAt) else Observed(After(createdAt, ms, n - 1), ms[n-1].0, ms[n-1].1)
  }

  // ---------------------------------------------------------------- what one message says

  /** A counted start of `id`: neither ambient nor nameless. */
  predicate Starts(m: Message, id: TaskId) {
    m.System? && m.body.TaskStarted? && !m.body.ambient && id != "" && m.taskId == Some(id)
  }

  /** A top-level tool result that resumed the agent `id`. */
  predicate Resumes(m: Message, id: TaskId) {
    m.User? && (m.parent == None || m.parent == Some("")) && |m.toolResults| == 1
    && id != "" && m.resumedAgentId == Some(id)
  }

  /** The tool_use_id a start or a resume gives its task. */
  function GivenUse(m: Message): Option<string> {
    match m
    case System(_, _, toolUseId, _) => toolUseId
    case User(_, toolResults, _, _) => if |toolResults| == 1 then toolResults[0] else None
    case _ => None
  }

  /** A start or a resume into the background. */
  predicate GivesBackground(m: Message) {
    m.User? || (m.System? && m.body.TaskStarted? && (m.body.isBackgrounded || m.body.workflow))
  }

  /** The level `m` lists `id` as live. */
  predicate Lists(m: Message, id: TaskId) {
    && m.System? && m.body.BackgroundTasksChanged? && m.body.tasks.Some?
    && exists t :: t in m.body.tasks.value && !t.ambient && t.taskId == Some(id)
  }

  /** A patch that moves `id` to the background. */
  predicate Patches(m: Message, id: TaskId) {
    m.System? && m.body.TaskUpdated? && !m.body.terminal && m.body.patchBackgrounded && id != "" && m.taskId == Some(id)
  }

  /** Any other report on `id` that is not its end. */
  predicate Mentions(m: Message, id: TaskId) {
    && m.System? && id != "" && m.taskId == Some(id)
    && (m.body.Init? || m.body.OtherSystem? || (m.body.TaskUpdated? && !m.body.terminal))
  }

  predicate EndsTask(m: Message) {
    && m.System? && m.taskId.Some? && m.taskId.value != ""
    && (m.body.TaskNotification? || (m.body.TaskUpdated? && m.body.terminal))
  }

  /** How many reports in `m` can settle tasks: its notified tasks, its own end, or its level. */
  function Reports(m: Message): nat {
    if m.User? then |m.notified|
    else if EndsTask(m) || (m.System? && m.body.BackgroundTasksChanged? && m.body.tasks.Some?) then 1
    else 0
  }

  /** The main loop, and not a subagent, speaks. */
  predicate MainLoopSpeaks(m: Message) {
    && (m.parent == None || m.parent == Some(""))
    && (m.Assistant? || m.User? || m.StreamEvent? || (m.System? && m.body.Init?))
  }

  // ---------------------------------------------------------------- reading the trace

  /** The message that opened `id`, if the task is pending before message `n`. */
  function Opener(ms: Trace, n: nat, id: TaskId): (r: Option<nat>)
    requires n <= |ms|
    ensures r.Some? ==> r.value < n
    decreases n, 0, 0
  {
    if n == 0 then None else OpenerAt(ms, n - 1, Reports(ms[n-1].0), id)
  }

  /** Message `n` opens `id`; a resume counts only while `id` is not pending. */
  predicate Opens(ms: Trace, n: nat, id: TaskId)
    requires n < |ms|
    decreases n, 0, 1
  {
    Starts(ms[n].0, id) || (Resumes(ms[n].0, id) && Opener(ms, n, id).None?)
  }

  /** The same after the start in message `n`, if any, and its first `k` reports. */
  function OpenerAt(ms: Trace, n: nat, k: nat, id: TaskId): (r: Option<nat>)
    requires n < |ms| && k <= Reports(ms[n].0)
    ensures r.Some? ==> r.value <= n
    decreases n, k, 2
  {
    if k == 0 then if Opens(ms, n, id) then Some(n) else Opener(ms, n, id)
    else if Ends(ms, n, k - 1, id) then None
    else OpenerAt(ms, n, k - 1, id)
  }

  /** Report `k` of message `n` ends the pending task `id`: it names it, or it names no pending task
      and has its tool_use_id, or it is a level without it and the task is known to be backgrounded. */
  predicate Ends(ms: Trace, n: nat, k: nat, id: TaskId)
    requires n < |ms| && k < Reports(ms[n].0)
    decreases n, k, 3
  {
    var m, opener := ms[n].0, OpenerAt(ms, n, k, id);
    && opener.Some?
    && if m.System? && m.body.BackgroundTasksChanged?
       then !Lists(m, id) && KnownBackground(ms, n, id, opener.value)
       else
         var taskId, toolUseId := NamedTask(m, k), NamedUse(m, k);
         if taskId.Some? && taskId.value != "" && OpenerAt(ms, n, k, taskId.value).Some? then id == taskId.value
         else toolUseId.Some? && toolUseId.value != "" && GivenUse(ms[opener.value].0) == toolUseId
  }

  function NamedTask(m: Message, k: nat): Option<TaskId>
    requires k < Reports(m)
  {
    if m.User? then m.notified[k].taskId else m.taskId
  }

  function NamedUse(m: Message, k: nat): Option<string>
    requires k < Reports(m)
  {
    if m.User? then m.notified[k].toolUseId else m.toolUseId
  }

  /** The task opened by message `i` is known, before message `n`, to run in the background. */
  predicate KnownBackground(ms: Trace, n: nat, id: TaskId, i: nat)
    requires n <= |ms| && i < |ms|
  {
    GivesBackground(ms[i].0) || exists k :: i < k < n && (Lists(ms[k].0, id) || Patches(ms[k].0, id))
  }

  ghost predicate OpensSome(ms: Trace, n: nat)
    requires n < |ms|
  {
    exists id :: Opens(ms, n, id)
  }

  ghost predicate MentionsPending(ms: Trace, n: nat)
    requires n < |ms|
  {
    exists id :: Mentions(ms[n].0, id) && Opener(ms, n, id).Some?
  }

  /** Report `k` of message `n` settles some pending task. */
  ghost predicate ReportSettles(ms: Trace, n: nat, k: nat)
    requires n < |ms| && k < Reports(ms[n].0)
  {
    exists id :: Ends(ms, n, k, id)
  }

  /** Message `n` settles some pending task. */
  ghost predicate Settles(ms: Trace, n: nat)
    requires n < |ms|
  {
    exists k: nat :: k < Reports(ms[n].0) && ReportSettles(ms, n, k)
  }

  ghost predicate EndsBefore(ms: Trace, n: nat, k: nat, id: TaskId)
    requires n < |ms| && k <= Reports(ms[n].0)
  {
    exists j: nat :: j < k && Ends(ms, n, j, id)
  }

  /** Some report of message `n` ends `id`. */
  ghost predicate EndsIn(ms: Trace, n: nat, id: TaskId)
    requires n < |ms|
  {
    EndsBefore(ms, n, Reports(ms[n].0), id)
  }

  /** Message `i` opened `id`, and neither its own reports nor a later message undid that. */
  ghost predicate StandsUntil(ms: Trace, n: nat, id: TaskId, i: nat)
    requires n <= |ms|
  {
    && i < n && Opens(ms, i, id)
    && (forall j :: i < j < n ==> !Opens(ms, j, id))
    && (forall j :: i <= j < n ==> !EndsIn(ms, j, id))
  }

  /** `r` is the latest `result` before message `n`, and the main loop has not spoken since. */
  ghost predicate QuietSince(ms: Trace, n: nat, r: nat)
    requires n <= |ms|
  {
    && r < n && ms[r].0.Result?
    && forall k :: r < k < n ==> !ms[k].0.Result? && !MainLoopSpeaks(ms[k].0)
  }

  /** There was a `result`, and the main loop has not spoken since the latest. */
  ghost predicate Quiet(ms: Trace, n: nat)
    requires n <= |ms|
  {
    exists r: nat :: QuietSince(ms, n, r)
  }

  /** A pending task was settled since the latest `result`, and the main loop has not spoken since. */
  ghost predicate SettledQuietly(ms: Trace, n: nat)
    requires n <= |ms|
  {
    exists r: nat, j: nat :: QuietSince(ms, n, r) && r < j < n && Settles(ms, j)
  }

  /** The tool_use_id of the pending task `id`. */
  function OpenUse(ms: Trace, n: nat, id: TaskId): Option<string>
    requires n <= |ms|
  {
    var i := Opener(ms, n, id);
    if i.None? then None else GivenUse(ms[i.value].0)
  }

  ghost predicate UsePending(ms: Trace, n: nat, use: string)
    requires n <= |ms|
  {
    exists id :: OpenUse(ms, n, id) == Some(use)
  }

  /** Message `n` is a `result`, or it opens, ends, mentions or comes from a pending task. */
  ghost predicate Anchors(ms: Trace, n: nat)
    requires n < |ms|
  {
    var m := ms[n].0;
    || m.Result?
    || OpensSome(ms, n)
    || Settles(ms, n)
    || MentionsPending(ms, n)
    || (m.parent.Some? && UsePending(ms, n + 1, m.parent.value))
  }

  /** Report `k` of message `n` says that the tool use `use` ended. */
  ghost predicate SaysEnded(ms: Trace, n: nat, k: nat, use: string)
    requires n < |ms| && k < Reports(ms[n].0)
  {
    var m := ms[n].0;
    || (!(m.System? && m.body.BackgroundTasksChanged?) && NamedUse(m, k) == Some(use))
    || exists id :: Ends(ms, n, k, id) && GivenUse(ms[OpenerAt(ms, n, k, id).value].0) == Some(use)
  }

  /** Message `n` starts a task in the background, moves one there or resumes one. */
  ghost predicate MovesToBackground(ms: Trace, n: nat)
    requires n < |ms|
  {
    var m := ms[n].0;
    exists id :: Patches(m, id) || (Opens(ms, n, id) && (m.User? || m.body.isBackgrounded))
  }

  // ---------------------------------------------------------------- the refinement

  /** `pending` is what a reader of the first `n` messages says about `id`. */
  predicate Agrees(pending: map<TaskId, Task>, ms: Trace, n: nat, id: TaskId)
    requires n <= |ms|
  {
    var i := Opener(ms, n, id);
    && (id in pending <==> i.Some?)
    && (i.Some? ==> pending[id] == Task(GivenUse(ms[i.value].0), KnownBackground(ms, n, id, i.value)))
  }

  ghost predicate AgreesOnAll(pending: map<TaskId, Task>, ms: Trace, n: nat)
    requires n <= |ms|
  {
    forall id :: Agrees(pending, ms, n, id)
  }

  /** The same after the first `k` reports of message `n`. */
  predicate AgreesAt(pending: map<TaskId, Task>, ms: Trace, n: nat, k: nat, id: TaskId)
    requires n < |ms| && k <= Reports(ms[n].0)
  {
    var i := OpenerAt(ms, n, k, id);
    && (id in pending <==> i.Some?)
    && (i.Some? ==> pending[id] == Task(GivenUse(ms[i.value].0), KnownBackground(ms, n + 1, id, i.value)))
  }

  lemma BackgroundStep(ms: Trace, n: nat, id: TaskId, i: nat)
    requires i < n < |ms|
    ensures KnownBackground(ms, n + 1, id, i) <==>
              KnownBackground(ms, n, id, i) || Lists(ms[n].0, id) || Patches(ms[n].0, id)
  {
  }

  lemma ListsIsLive(m: Message, id: TaskId)
    requires m.System? && m.body.BackgroundTasksChanged? && m.body.tasks.Some?
    ensures Lists(m, id) <==> id in LiveIds(m.body.tasks.value)
  {
  }

  /** The tasks an effect settles. */
  function Gone(pending: map<TaskId, Task>, op: Op): set<TaskId> {
    match op
    case End(taskId, toolUseId) => EndedBy(pending, taskId, toolUseId)
    case Level(live) => MissingFrom(pending, live)
    case _ => {}
  }

  /** The effect of report `k` of a message. */
  function ReportOp(m: Message, k: nat): Op
    requires k < Reports(m)
  {
    if m.System? && m.body.BackgroundTasksChanged? then Level(LiveIds(m.body.tasks.value))
    else End(NamedTask(m, k), NamedUse(m, k))
  }

  /** Before a report: the tasks it settles are those the reader says it ends. */
  lemma EndsIsGone(pending: map<TaskId, Task>, ms: Trace, n: nat, k: nat, id: TaskId)
    requires n < |ms| && k < Reports(ms[n].0)
    requires ms[n].0.System? ==> AgreesOnAll(pending, ms, n)
    requires !ms[n].0.System? ==> forall x :: AgreesAt(pending, ms, n, k, x)
    ensures Ends(ms, n, k, id) <==> id in Gone(pending, ReportOp(ms[n].0, k))
  {
    var m := ms[n].0;
    if m.System? {
      assert Agrees(pending, ms, n, id);
      assert !Opens(ms, n, id) && OpenerAt(ms, n, k, id) == Opener(ms, n, id);
      if m.body.BackgroundTasksChanged? {
        ListsIsLive(m, id);
      } else {
        var named := m.taskId.value;
        assert Agrees(pending, ms, n, named);
        assert !Opens(ms, n, named) && OpenerAt(ms, n, k, named) == Opener(ms, n, named);
      }
    } else {
      assert AgreesAt(pending, ms, n, k, id);
      if m.notified[k].taskId.Some? { assert AgreesAt(pending, ms, n, k, m.notified[k].taskId.value); }
    }
  }

  /** What a message's starts, reports and mentions make of the state `s`. */
  ghost predicate Effected(s: State, t: State, ms: Trace, n: nat)
    requires n < |ms|
  {
    && t.quiet == s.quiet
    && (t.continuationExpected <==> s.continuationExpected || (s.quiet && Settles(ms, n)))
    && t.holdAnchorAt == (
         if OpensSome(ms, n) || Settles(ms, n) || MentionsPending(ms, n) then ms[n].1 else s.holdAnchorAt)
    && AgreesOnAll(t.pending, ms, n + 1)
  }

  /** The tool uses a message's effects report as ended are those its fields say ended. */
  ghost predicate EndsReported(ended: set<string>, ms: Trace, n: nat)
    requires n < |ms|
  {
    forall u :: u in ended <==> u != "" && exists k: nat :: k < Reports(ms[n].0) && SaysEnded(ms, n, k, u)
  }

  lemma LevelAgrees(s: State, ms: Trace, n: nat, id: TaskId)
    requires n < |ms| && AgreesOnAll(s.pending, ms, n)
    requires ms[n].0.System? && ms[n].0.body.BackgroundTasksChanged? && ms[n].0.body.tasks.Some?
    ensures Agrees(Apply(s, ReportOp(ms[n].0, 0), ms[n].1).pending, ms, n + 1, id)
  {
    var m := ms[n].0;
    var live := LiveIds(m.body.tasks.value);
    assert Agrees(s.pending, ms, n, id);
    EndsIsGone(s.pending, ms, n, 0, id);
    ListsIsLive(m, id);
    var i := Opener(ms, n, id);
    assert OpenerAt(ms, n, 0, id) == i;
    assert Opener(ms, n + 1, id) == if Ends(ms, n, 0, id) then None else i;
    if i.Some? { BackgroundStep(ms, n, id, i.value); }
  }

  lemma EndAgrees(s: State, ms: Trace, n: nat, id: TaskId)
    requires n < |ms| && AgreesOnAll(s.pending, ms, n) && EndsTask(ms[n].0)
    ensures Agrees(Apply(s, ReportOp(ms[n].0, 0), ms[n].1).pending, ms, n + 1, id)
  {
    assert Agrees(s.pending, ms, n, id);
    EndsIsGone(s.pending, ms, n, 0, id);
    var i := Opener(ms, n, id);
    assert OpenerAt(ms, n, 0, id) == i;
    assert Opener(ms, n + 1, id) == if Ends(ms, n, 0, id) then None else i;
    if i.Some? { BackgroundStep(ms, n, id, i.value); }
  }

  lemma MentionAgrees(s: State, ms: Trace, n: nat, id: TaskId)
    requires n < |ms| && ms[n].0.System? && AgreesOnAll(s.pending, ms, n) && Reports(ms[n].0) == 0
    ensures Agrees(ApplyAll(s, SystemOps(ms[n].0), ms[n].1).pending, ms, n + 1, id)
  {
    var m, now := ms[n].0, ms[n].1;
    assert Agrees(s.pending, ms, n, id);
    var i := Opener(ms, n, id);
    if i.Some? { BackgroundStep(ms, n, id, i.value); }
    if m.taskId.Some? && Patches(m, m.taskId.value) {
      assert SystemOps(m) == [Touch(m.taskId.value)] + [ToBackground(m.taskId.value)];
      ApplyAllConcat(s, [Touch(m.taskId.value)], [ToBackground(m.taskId.value)], now);
    } else if SystemOps(m) != [] {
      assert ApplyAll(s, SystemOps(m), now) == Apply(s, SystemOps(m)[0], now);
    }
    assert Opener(ms, n + 1, id) == if Opens(ms, n, id) then Some(n) else i;
  }

  /** A `system` message before which `s` agrees with the trace. */
  lemma SystemAgrees(s: State, ms: Trace, n: nat, id: TaskId)
    requires n < |ms| && ms[n].0.System? && AgreesOnAll(s.pending, ms, n)
    ensures Agrees(ApplyAll(s, SystemOps(ms[n].0), ms[n].1).pending, ms, n + 1, id)
  {
    var m, now := ms[n].0, ms[n].1;
    if Reports(m) == 0 {
      MentionAgrees(s, ms, n, id);
    } else {
      assert SystemOps(m) == [ReportOp(m, 0)];
      assert ApplyAll(s, SystemOps(m), now) == Apply(s, ReportOp(m, 0), now);
      if EndsTask(m) { EndAgrees(s, ms, n, id); } else { LevelAgrees(s, ms, n, id); }
    }
  }

  /** Before report `k` of message `n`, `pending` agrees with the trace. */
  ghost predicate Ready(pending: map<TaskId, Task>, ms: Trace, n: nat, k: nat)
    requires n < |ms| && k <= Reports(ms[n].0)
  {
    if ms[n].0.System? then k == 0 && AgreesOnAll(pending, ms, n) else forall id :: AgreesAt(pending, ms, n, k, id)
  }

  lemma ReportUses(s: State, ms: Trace, n: nat, k: nat, u: string)
    requires n < |ms| && k < Reports(ms[n].0) && Ready(s.pending, ms, n, k)
    ensures u in EndedUses(s, ReportOp(ms[n].0, k)) <==> u != "" && SaysEnded(ms, n, k, u)
  {
    var m := ms[n].0;
    var gone := Gone(s.pending, ReportOp(m, k));
    forall id ensures Ends(ms, n, k, id) <==> id in gone
      ensures id in gone ==> s.pending[id].toolUseId == GivenUse(ms[OpenerAt(ms, n, k, id).value].0)
    {
      EndsIsGone(s.pending, ms, n, k, id);
      if m.System? { assert Agrees(s.pending, ms, n, id); } else { assert AgreesAt(s.pending, ms, n, k, id); }
    }
    if u in UsesOf(s.pending, gone) {
      var id :| id in gone && id in s.pending && s.pending[id].toolUseId == Some(u);
      assert Ends(ms, n, k, id);
    }
    if u != "" {
      if id :| Ends(ms, n, k, id) && GivenUse(ms[OpenerAt(ms, n, k, id).value].0) == Some(u) {
        assert id in gone && u in UsesOf(s.pending, gone);
      }
    }
  }

  lemma SettlesIsGone(s: State, ms: Trace, n: nat, k: nat)
    requires n < |ms| && k < Reports(ms[n].0) && Ready(s.pending, ms, n, k)
    ensures Gone(s.pending, ReportOp(ms[n].0, k)) != {} <==> ReportSettles(ms, n, k)
  {
    var gone := Gone(s.pending, ReportOp(ms[n].0, k));
    if id :| id in gone { EndsIsGone(s.pending, ms, n, k, id); }
    if id :| Ends(ms, n, k, id) { EndsIsGone(s.pending, ms, n, k, id); }
  }

  lemma Settling(s: State, op: Op, now: nat)
    requires op.End? || op.Level?
    ensures var t, some := Apply(s, op, now), Gone(s.pending, op) != {};
            && t.quiet == s.quiet && t.holdAnchorAt == (if some then now else s.holdAnchorAt)
            && (t.continuationExpected <==> s.continuationExpected || (s.quiet && some))
  {
  }

  lemma {:induction false} SystemEffects(s: State, ms: Trace, n: nat)
    requires n < |ms| && ms[n].0.System? && AgreesOnAll(s.pending, ms, n)
    ensures Effected(s, ApplyAll(s, SystemOps(ms[n].0), ms[n].1), ms, n)
    ensures EndsReported(AllEndedUses(s, SystemOps(ms[n].0), ms[n].1), ms, n)
  {
    var m, now := ms[n].0, ms[n].1;
    var ops := SystemOps(m);
    var t, next: nat := ApplyAll(s, ops, now), n + 1;
    forall id ensures Agrees(t.pending, ms, next, id) { SystemAgrees(s, ms, n, id); }
    if Reports(m) == 1 {
      assert ops == [ReportOp(m, 0)] && ops[1..] == [];
      assert ApplyAll(s, ops, now) == Apply(s, ops[0], now);
      assert AllEndedUses(s, ops, now) == EndedUses(s, ops[0]);
      SettlesIsGone(s, ms, n, 0);
      Settling(s, ops[0], now);
      forall u: string ensures u in EndedUses(s, ops[0]) <==> u != "" && SaysEnded(ms, n, 0, u) {
        ReportUses(s, ms, n, 0, u);
      }
      assert Settles(ms, n) <==> Gone(s.pending, ops[0]) != {};
      assert t.quiet == s.quiet;
      assert t.continuationExpected <==> s.continuationExpected || (s.quiet && Settles(ms, n));
    } else if m.taskId.Some? {
      assert Agrees(s.pending, ms, n, m.taskId.value);
      if Patches(m, m.taskId.value) {
        assert Mentions(m, m.taskId.value);
        assert ops == [Touch(m.taskId.value)] + [ToBackground(m.taskId.value)];
        ApplyAllConcat(s, [Touch(m.taskId.value)], [ToBackground(m.taskId.value)], now);
        EndedConcat(s, [Touch(m.taskId.value)], [ToBackground(m.taskId.value)], now);
      } else if ops != [] {
        assert ApplyAll(s, ops, now) == Apply(s, ops[0], now);
        assert Starts(m, m.taskId.value) ==> Opens(ms, n, m.taskId.value);
      }
    }
  }

  lemma {:induction false} ResumeAgrees(s: State, ms: Trace, n: nat)
    requires n < |ms| && !ms[n].0.System? && AgreesOnAll(s.pending, ms, n)
    ensures var t := ApplyAll(s, ResumeOps(ms[n].0), ms[n].1);
            && Ready(t.pending, ms, n, 0)
            && t == s.(pending := t.pending, holdAnchorAt := t.holdAnchorAt)
            && t.holdAnchorAt == if OpensSome(ms, n) then ms[n].1 else s.holdAnchorAt
  {
    var m, now := ms[n].0, ms[n].1;
    var ops := ResumeOps(m);
    var t := ApplyAll(s, ops, now);
    if ops != [] {
      assert ApplyAll(s, ops, now) == Apply(s, ops[0], now);
      assert Agrees(s.pending, ms, n, ops[0].id);
      assert Opens(ms, n, ops[0].id) <==> ops[0].id !in s.pending;
    }
    forall id ensures AgreesAt(t.pending, ms, n, 0, id) {
      assert Agrees(s.pending, ms, n, id);
      var i := Opener(ms, n, id);
      if i.Some? { BackgroundStep(ms, n, id, i.value); }
    }
  }

  /** The reports of message `n` from the `k`-th on settle some pending task. */
  ghost predicate SettlesFrom(ms: Trace, n: nat, k: nat)
    requires n < |ms|
  {
    exists j: nat :: k <= j < Reports(ms[n].0) && ReportSettles(ms, n, j)
  }

  ghost predicate SaysEndedFrom(ms: Trace, n: nat, k: nat, u: string)
    requires n < |ms|
  {
    exists j: nat :: k <= j < Reports(ms[n].0) && SaysEnded(ms, n, j, u)
  }

  lemma NotifiedStep(s: State, ms: Trace, n: nat, k: nat)
    requires n < |ms| && ms[n].0.User? && k < |ms[n].0.notified| && Ready(s.pending, ms, n, k)
    ensures Ready(Apply(s, ReportOp(ms[n].0, k), ms[n].1).pending, ms, n, k + 1)
  {
    var t, next: nat := Apply(s, ReportOp(ms[n].0, k), ms[n].1), k + 1;
    forall id ensures AgreesAt(t.pending, ms, n, next, id) {
      assert AgreesAt(s.pending, ms, n, k, id);
      EndsIsGone(s.pending, ms, n, k, id);
    }
  }

  lemma {:induction false} NotifiedEffects(s: State, ms: Trace, n: nat, k: nat)
    requires n < |ms| && ms[n].0.User? && k <= |ms[n].0.notified| && Ready(s.pending, ms, n, k)
    ensures var ops, now := NotifiedOps(ms[n].0.notified[k..]), ms[n].1;
            var t := ApplyAll(s, ops, now);
            && AgreesOnAll(t.pending, ms, n + 1)
            && t.quiet == s.quiet
            && (t.continuationExpected <==> s.continuationExpected || (s.quiet && SettlesFrom(ms, n, k)))
            && t.holdAnchorAt == (if SettlesFrom(ms, n, k) then now else s.holdAnchorAt)
            && forall u :: u in AllEndedUses(s, ops, now) <==> u != "" && SaysEndedFrom(ms, n, k, u)
    decreases |ms[n].0.notified| - k
  {
    var m, now := ms[n].0, ms[n].1;
    var ns, next: nat := m.notified[k..], n + 1;
    if k == |m.notified| {
      forall id ensures Agrees(s.pending, ms, next, id) { assert AgreesAt(s.pending, ms, n, k, id); }
    } else {
      var op := ReportOp(m, k);
      assert ns[0] == m.notified[k] && ns[1..] == m.notified[k+1..];
      assert NotifiedOps(ns)[0] == op && NotifiedOps(ns)[1..] == NotifiedOps(ns[1..]);
      SettlesIsGone(s, ms, n, k);
      Settling(s, op, now);
      NotifiedStep(s, ms, n, k);
      NotifiedEffects(Apply(s, op, now), ms, n, k + 1);
      assert SettlesFrom(ms, n, k) <==> SettlesFrom(ms, n, k + 1) || Gone(s.pending, op) != {};
      forall u ensures u in EndedUses(s, op) <==> u != "" && SaysEnded(ms, n, k, u) { ReportUses(s, ms, n, k, u); }
      forall u ensures SaysEndedFrom(ms, n, k, u) <==> SaysEndedFrom(ms, n, k + 1, u) || SaysEnded(ms, n, k, u) {}
    }
  }

  /** The state before the activity of a message's sender and its phase are taken into account. */
  function Reported(s: State, m: Message, now: nat): State {
    if m.System? then ApplyAll(s, SystemOps(m), now)
    else ApplyAll(ApplyAll(s, ResumeOps(m), now), if m.User? then NotifiedOps(m.notified) else [], now)
  }

  lemma ReportedEffects(s: State, ms: Trace, n: nat)
    requires n < |ms| && AgreesOnAll(s.pending, ms, n)
    ensures Effected(s, Reported(s, ms[n].0, ms[n].1), ms, n)
    ensures EndsReported(AllEndedUses(s, Ops(ms[n].0), ms[n].1), ms, n)
  {
    var m, now := ms[n].0, ms[n].1;
    EndedParts(s, m, now);
    if m.System? {
      SystemEffects(s, ms, n);
    } else {
      ResumeAgrees(s, ms, n);
      var t := ApplyAll(s, ResumeOps(m), now);
      if m.User? {
        assert m.notified[0..] == m.notified;
        NotifiedEffects(t, ms, n, 0);
        assert Settles(ms, n) <==> SettlesFrom(ms, n, 0);
      } else {
        var next: nat := n + 1;
        forall id ensures Agrees(t.pending, ms, next, id) { assert AgreesAt(t.pending, ms, n, 0, id); }
      }
    }
  }

  lemma SpeakMatches(pending: map<TaskId, Task>, ms: Trace, n: nat, use: string)
    requires n <= |ms| && AgreesOnAll(pending, ms, n)
    ensures UsePending(ms, n, use) <==> exists id :: id in pending && pending[id].toolUseId == Some(use)
  {
    if id :| OpenUse(ms, n, id) == Some(use) { assert Agrees(pending, ms, n, id); }
    if id :| id in pending && pending[id].toolUseId == Some(use) {
      assert Agrees(pending, ms, n, id);
      assert OpenUse(ms, n, id) == Some(use);
    }
  }

  lemma BackgroundMatches(pending: map<TaskId, Task>, ms: Trace, n: nat)
    requires n < |ms| && AgreesOnAll(pending, ms, n)
    ensures ReportsBackground(pending, ms[n].0) <==> MovesToBackground(ms, n)
  {
    var m := ms[n].0;
    if MovesToBackground(ms, n) {
      var id :| Patches(m, id) || (Opens(ms, n, id) && (m.User? || m.body.isBackgrounded));
      assert Agrees(pending, ms, n, id);
      assert Patches(m, id) ==> ToBackground(id) in SystemOps(m);
      assert m.System? && Opens(ms, n, id) ==> SaysBackground(SystemOps(m)[0]);
    }
    if ReportsBackground(pending, m) {
      var id := if m.System? then m.taskId.value else m.resumedAgentId.value;
      assert Agrees(pending, ms, n, id);
      assert Patches(m, id) || Opens(ms, n, id);
    }
  }

  /** The rest of `observe`: the activity of the message's sender, then the main loop's phase. */
  function Sent(r: State, m: Message, now: nat): State {
    ApplyAll(ApplyAll(r, SpeakOps(m), now), PhaseOps(m), now)
  }

  lemma SentEffects(r: State, m: Message, now: nat)
    ensures var t := Sent(r, m, now);
            && t.pending == r.pending
            && t.quiet == (m.Result? || (r.quiet && !MainLoopSpeaks(m)))
            && t.continuationExpected == (!m.Result? && !MainLoopSpeaks(m) && r.continuationExpected)
            && t.holdAnchorAt == if m.Result? || (m.parent.Some? && SpokenFor(r, m.parent.value)) then now
                                 else r.holdAnchorAt
  {
    var u := ApplyAll(r, SpeakOps(m), now);
    if m.parent.Some? { assert ApplyAll(r, [Speak(m.parent.value)], now) == Apply(r, Speak(m.parent.value), now); }
    if PhaseOps(m) != [] { assert ApplyAll(u, PhaseOps(m), now) == Apply(u, PhaseOps(m)[0], now); }
  }

  /** One message. */
  lemma MessageStep(s: State, ms: Trace, n: nat)
    requires n < |ms| && AgreesOnAll(s.pending, ms, n)
    ensures var m, t := ms[n].0, Observed(s, ms[n].0, ms[n].1);
            && AgreesOnAll(t.pending, ms, n + 1)
            && t.quiet == (m.Result? || (s.quiet && !MainLoopSpeaks(m)))
            && (t.continuationExpected <==>
                  !m.Result? && !MainLoopSpeaks(m) && (s.continuationExpected || (s.quiet && Settles(ms, n))))
            && t.holdAnchorAt == if Anchors(ms, n) then ms[n].1 else s.holdAnchorAt
  {
    var m, now := ms[n].0, ms[n].1;
    var r := Reported(s, m, now);
    ObservedParts(s, m, now);
    ReportedEffects(s, ms, n);
    assert Observed(s, m, now) == Sent(r, m, now);
    SentEffects(r, m, now);
    if m.parent.Some? { SpeakMatches(r.pending, ms, n + 1, m.parent.value); }
  }

  lemma {:induction false} OpenerAtStands(ms: Trace, n: nat, k: nat, id: TaskId)
    requires n < |ms| && k <= Reports(ms[n].0)
    ensures OpenerAt(ms, n, k, id) ==
            if EndsBefore(ms, n, k, id) then None else OpenerAt(ms, n, 0, id)
    decreases k
  {
    if k > 0 {
      OpenerAtStands(ms, n, k - 1, id);
      if Ends(ms, n, k - 1, id) {
        assert EndsBefore(ms, n, k, id);
      } else {
        assert EndsBefore(ms, n, k, id) <==> EndsBefore(ms, n, k - 1, id);
      }
    }
  }

  /** The recursive reading of the trace is the start that nothing later undid. */
  lemma {:induction false} OpenerStands(ms: Trace, n: nat, id: TaskId)
    requires n <= |ms|
    ensures forall i: nat :: Opener(ms, n, id) == Some(i) <==> StandsUntil(ms, n, id, i)
    decreases n
  {
    if n > 0 {
      var m: nat := n - 1;
      OpenerStands(ms, m, id);
      OpenerAtStands(ms, m, Reports(ms[m].0), id);
      assert Opener(ms, n, id) == if EndsIn(ms, m, id) then None else OpenerAt(ms, m, 0, id);
      forall i: nat ensures Opener(ms, n, id) == Some(i) <==> StandsUntil(ms, n, id, i) {
        assert StandsUntil(ms, n, id, i) <==>
          !EndsIn(ms, m, id) && if i == m then Opens(ms, m, id) else StandsUntil(ms, m, id, i) && !Opens(ms, m, id);
      }
    }
  }

  /** After any trace of messages a task is pending exactly when its latest counted start follows its
      latest end; its tool_use_id is that start's, and it is marked backgrounded exactly when the
      messages since say so. */
  lemma {:induction false} PendingIsHistory(createdAt: nat, ms: Trace, n: nat, id: TaskId)
    requires n <= |ms|
    ensures Agrees(After(createdAt, ms, n).pending, ms, n, id)
    ensures forall i: nat :: Opener(ms, n, id) == Some(i) <==> StandsUntil(ms, n, id, i)
  {
    OpenerStands(ms, n, id);
    AgreesAlong(createdAt, ms, n);
  }

  lemma {:induction false} AgreesAlong(createdAt: nat, ms: Trace, n: nat)
    requires n <= |ms|
    ensures AgreesOnAll(After(createdAt, ms, n).pending, ms, n)
  {
    if n > 0 {
      var m: nat := n - 1;
      var s, t := After(createdAt, ms, m), After(createdAt, ms, n);
      AgreesAlong(createdAt, ms, m);
      MessageStep(s, ms, m);
      assert t == Observed(s, ms[m].0, ms[m].1);
    }
  }

  /** What message `n` does to the quiet phase, the expected continuation and the anchor. */
  lemma StepAlong(createdAt: nat, ms: Trace, n: nat)
    requires n < |ms|
    ensures var m, s, t := ms[n].0, After(createdAt, ms, n), After(createdAt, ms, n + 1);
            && t.quiet == (m.Result? || (s.quiet && !MainLoopSpeaks(m)))
            && (t.continuationExpected <==>
                  !m.Result? && !MainLoopSpeaks(m) && (s.continuationExpected || (s.quiet && Settles(ms, n))))
            && t.holdAnchorAt == if Anchors(ms, n) then ms[n].1 else s.holdAnchorAt
  {
    AgreesAlong(createdAt, ms, n);
    MessageStep(After(createdAt, ms, n), ms, n);
  }

  /** One message: a `result` starts a quiet phase, the main loop's speaking ends it, nothing else does. */
  lemma QuietSinceStep(ms: Trace, n: nat, r: nat)
    requires n < |ms|
    ensures QuietSince(ms, n + 1, r) <==>
              if ms[n].0.Result? then r == n else QuietSince(ms, n, r) && !MainLoopSpeaks(ms[n].0)
  {
    if QuietSince(ms, n + 1, r) && r < n { assert !ms[n].0.Result? && !MainLoopSpeaks(ms[n].0); }
  }

  lemma QuietStep(ms: Trace, n: nat)
    requires n < |ms|
    ensures Quiet(ms, n + 1) <==> ms[n].0.Result? || (Quiet(ms, n) && !MainLoopSpeaks(ms[n].0))
  {
    if r: nat :| QuietSince(ms, n, r) { QuietSinceStep(ms, n, r); }
    var m: nat := n + 1;
    if r: nat :| QuietSince(ms, m, r) { QuietSinceStep(ms, n, r); }
    QuietSinceStep(ms, n, n);
  }

  lemma SettledQuietlyStep(ms: Trace, n: nat)
    requires n < |ms|
    ensures SettledQuietly(ms, n + 1) <==>
              && !ms[n].0.Result? && !MainLoopSpeaks(ms[n].0)
              && (SettledQuietly(ms, n) || (Settles(ms, n) && Quiet(ms, n)))
  {
    var m: nat := n + 1;
    if r: nat, j: nat :| QuietSince(ms, m, r) && r < j < m && Settles(ms, j) {
      QuietSinceStep(ms, n, r);
    }
    if !ms[n].0.Result? && !MainLoopSpeaks(ms[n].0) {
      if r: nat, j: nat :| QuietSince(ms, n, r) && r < j < n && Settles(ms, j) {
        QuietSinceStep(ms, n, r);
      } else if Settles(ms, n) && Quiet(ms, n) {
        var r: nat :| QuietSince(ms, n, r);
        QuietSinceStep(ms, n, r);
      }
    }
  }

  /** `quiet` holds exactly from a `result` until the main loop speaks again, and
      `continuationExpected` exactly when, besides, a message since settled a pending task. */
  lemma {:induction false} ContinuationIsHistory(createdAt: nat, ms: Trace, n: nat)
    requires n <= |ms|
    ensures After(createdAt, ms, n).quiet <==> Quiet(ms, n)
    ensures After(createdAt, ms, n).continuationExpected <==> SettledQuietly(ms, n)
    decreases n
  {
    if n > 0 {
      var m: nat := n - 1;
      var s, t := After(createdAt, ms, m), After(createdAt, ms, n);
      ContinuationIsHistory(createdAt, ms, m);
      StepAlong(createdAt, ms, m);
      QuietStep(ms, m);
      SettledQuietlyStep(ms, m);
      assert t.quiet <==> Quiet(ms, n);
      assert t.continuationExpected <==> SettledQuietly(ms, n);
    }
  }

  /** `at` is the time of the latest anchoring message before message `n`, else `createdAt`. */
  ghost predicate LatestAnchor(createdAt: nat, ms: Trace, n: nat, at: nat)
    requires n <= |ms|
  {
    || ((forall k :: 0 <= k < n ==> !Anchors(ms, k)) && at == createdAt)
    || exists j :: 0 <= j < n && Anchors(ms, j) && at == ms[j].1 && forall k :: j < k < n ==> !Anchors(ms, k)
  }

  lemma LatestAnchorStep(createdAt: nat, ms: Trace, n: nat, at: nat)
    requires n < |ms| && LatestAnchor(createdAt, ms, n, at)
    ensures LatestAnchor(createdAt, ms, n + 1, if Anchors(ms, n) then ms[n].1 else at)
  {
  }

  /** `holdAnchorAt` is the time of the latest `result` or message about a pending task, and the
      tracker's creation time before any: no other message moves it. */
  lemma {:induction false} AnchorIsHistory(createdAt: nat, ms: Trace, n: nat)
    requires n <= |ms|
    ensures LatestAnchor(createdAt, ms, n, After(createdAt, ms, n).holdAnchorAt)
    decreases n
  {
    if n > 0 {
      var m: nat := n - 1;
      var s, t := After(createdAt, ms, m), After(createdAt, ms, n);
      AnchorIsHistory(createdAt, ms, m);
      StepAlong(createdAt, ms, m);
      LatestAnchorStep(createdAt, ms, m, s.holdAnchorAt);
      assert LatestAnchor(createdAt, ms, n, t.holdAnchorAt);
    }
  }

  /** What observing message `n` answers: the tool uses that ended are those a report of it carries and
      those of the tasks it settles, and `backgrounded` says that it started a task in the background,
      moved one there or resumed one. */
  lemma AnswersAreHistory(createdAt: nat, ms: Trace, n: nat)
    requires n < |ms|
    ensures var s, m := After(createdAt, ms, n), ms[n].0;
            && (forall u :: u in AllEndedUses(s, Ops(m), ms[n].1) <==>
                  u != "" && exists k: nat :: k < Reports(m) && SaysEnded(ms, n, k, u))
            && (ReportsBackground(s.pending, m) <==> MovesToBackground(ms, n))
  {
    AgreesAlong(createdAt, ms, n);
    ReportedEffects(After(createdAt, ms, n), ms, n);
    BackgroundMatches(After(createdAt, ms, n).pending, ms, n);
  }

  /** A report that names no pending task, neither by its task id nor by its tool_use_id. */
  predicate NamesNone(pending: map<TaskId, Task>, taskId: Option<TaskId>, toolUseId: Option<string>) {
    && (Truthy(taskId) ==> taskId.value !in pending)
    && (Truthy(toolUseId) ==> forall id :: id in pending ==> pending[id].toolUseId != toolUseId)
  }

  /** A `system` message that says nothing new about a pending task: a level that lists exactly the
      ones known to be backgrounded, an ambient start, or a report about another task. */
  predicate UnrelatedSystem(pending: map<TaskId, Task>, m: Message)
    requires m.System?
  {
    match m.body
    case BackgroundTasksChanged(tasks) =>
      tasks.Some? ==> forall id :: id in pending ==> (pending[id].backgrounded <==> id in LiveIds(tasks.value))
    case TaskStarted(ambient, _, _) => ambient || !Truthy(m.taskId)
    case TaskNotification => Truthy(m.taskId) ==> NamesNone(pending, m.taskId, m.toolUseId)
    case TaskUpdated(terminal, _) =>
      Truthy(m.taskId) ==> NamesNone(pending, m.taskId, if terminal then m.toolUseId else None)
    case Init => Truthy(m.taskId) ==> m.taskId.value !in pending
    case OtherSystem => Truthy(m.taskId) ==> m.taskId.value !in pending
  }

  predicate UnrelatedUser(pending: map<TaskId, Task>, m: Message)
    requires m.User?
  {
    && (!Truthy(m.parent) && |m.toolResults| == 1 && Truthy(m.resumedAgentId) ==> m.resumedAgentId.value in pending)
    && forall i :: 0 <= i < |m.notified| ==> NamesNone(pending, m.notified[i].taskId, m.notified[i].toolUseId)
  }

  /** A message that is no `result` and concerns no pending task: read off its own fields. */
  predicate Unrelated(pending: map<TaskId, Task>, m: Message) {
    && !m.Result?
    && (m.parent.Some? ==> forall id :: id in pending ==> pending[id].toolUseId != m.parent)
    && (m.System? ==> UnrelatedSystem(pending, m))
    && (m.User? ==> UnrelatedUser(pending, m))
  }

  lemma {:induction false} UnrelatedReports(s: State, ns: seq<Notified>, now: nat)
    requires forall i :: 0 <= i < |ns| ==> NamesNone(s.pending, ns[i].taskId, ns[i].toolUseId)
    ensures ApplyAll(s, NotifiedOps(ns), now) == s
    decreases |ns|
  {
    if ns != [] {
      assert EndedBy(s.pending, ns[0].taskId, ns[0].toolUseId) == {};
      assert NotifiedOps(ns)[1..] == NotifiedOps(ns[1..]);
      UnrelatedReports(s, ns[1..], now);
    }
  }

  lemma UnrelatedSystemIdle(s: State, m: Message, now: nat)
    requires m.System? && UnrelatedSystem(s.pending, m)
    ensures ApplyAll(s, SystemOps(m), now) == s
  {
    match m.body
    case BackgroundTasksChanged(tasks) =>
      if tasks.Some? {
        var live := LiveIds(tasks.value);
        assert MarkLive(s.pending, live) == s.pending && MissingFrom(s.pending, live) == {};
        assert ApplyAll(s, [Level(live)], now) == Apply(s, Level(live), now);
      }
    case TaskUpdated(terminal, patchBackgrounded) =>
      if Truthy(m.taskId) && terminal {
        assert EndedBy(s.pending, m.taskId, m.toolUseId) == {};
      } else if Truthy(m.taskId) && patchBackgrounded {
        var ops := [Touch(m.taskId.value), ToBackground(m.taskId.value)];
        assert SystemOps(m) == ops && ops[1..] == [ToBackground(m.taskId.value)];
        assert ApplyAll(s, ops[1..], now) == s;
      }
    case TaskNotification =>
      if Truthy(m.taskId) { assert EndedBy(s.pending, m.taskId, m.toolUseId) == {}; }
    case _ =>
  }

  /** Observing an unrelated message changes nothing, except that main-loop activity ends the quiet
      phase: the pending tasks and the anchor of the hold stay. */
  lemma UnrelatedKeepsHold(s: State, m: Message, now: nat)
    requires Unrelated(s.pending, m)
    ensures Observed(s, m, now)
         == if StartsMainLoopActivity(m) then s.(quiet := false, continuationExpected := false) else s
  {
    ObservedParts(s, m, now);
    if m.System? { UnrelatedSystemIdle(s, m, now); }
    if m.User? { UnrelatedReports(s, m.notified, now); }
    if m.parent.Some? { assert !SpokenFor(s, m.parent.value); }
  }
}
