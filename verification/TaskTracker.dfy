/** Models the background-task tracker of server/claude-sdk.js: `createBackgroundTaskTracker` is
    the class `BackgroundTaskTracker`. `Apply` specifies one elementary effect on its state, and
    the lemmas prove that the running state is a function of the history alone. */
module TaskTracker {
  import opened Common

  type TaskId = string

  /** A `task_id`/`tool_use_id` pair read from a `<task-notification>` text. */
  datatype Notified = Notified(taskId: Option<TaskId>, toolUseId: Option<string>)

  /** One element of a `background_tasks_changed` list. */
  datatype LevelTask = LevelTask(taskId: Option<TaskId>, ambient: bool)

  datatype SystemBody =
    | TaskStarted(ambient: bool, isBackgrounded: bool, workflow: bool)
    | TaskNotification
    | TaskUpdated(terminal: bool, patchBackgrounded: bool)
    | BackgroundTasksChanged(tasks: Option<seq<LevelTask>>)
    | Init
    | OtherSystem

  /** A raw SDK message, reduced to what the tracker reads. `parent` is `parent_tool_use_id`;
      `toolResults` holds the tool_use_id of each tool_result block; `resumedAgentId` is trimmed. */
  datatype Message =
    | System(parent: Option<string>, taskId: Option<TaskId>, toolUseId: Option<string>, body: SystemBody)
    | User(parent: Option<string>, toolResults: seq<Option<string>>, resumedAgentId: Option<TaskId>,
           notified: seq<Notified>)
    | Assistant(parent: Option<string>)
    | StreamEvent(parent: Option<string>)
    | Result(parent: Option<string>)
    | Other(parent: Option<string>)

  datatype Task = Task(toolUseId: Option<string>, backgrounded: bool)

  datatype State = State(
    pending: map<TaskId, Task>,
    quiet: bool,
    continuationExpected: bool,
    holdAnchorAt: nat)

  /** JavaScript truthiness of a string-or-null. */
  predicate Truthy(s: Option<string>) { s.Some? && s.value != "" }

  // ---------------------------------------------------------------- elementary effects

  /** What a message does, as a list of elementary effects in the order the code performs them. */
  datatype Op =
    | Start(id: TaskId, toolUseId: Option<string>, background: bool, flagged: bool)
    | Resume(id: TaskId, toolUseId: Option<string>)
    | End(taskId: Option<TaskId>, toolUseId: Option<string>)
    | Level(live: set<TaskId>)
    | Touch(id: TaskId)
    | ToBackground(id: TaskId)
    | Speak(parent: string)
    | ResultSeen
    | MainActivity

  function LiveIds(tasks: seq<LevelTask>): set<TaskId> {
    set t | t in tasks && !t.ambient && t.taskId.Some? :: t.taskId.value
  }

  function SystemOps(m: Message): seq<Op>
    requires m.System?
  {
    match m.body
    case BackgroundTasksChanged(tasks) => if tasks.None? then [] else [Level(LiveIds(tasks.value))]
    case TaskStarted(ambient, isBackgrounded, workflow) =>
      if !Truthy(m.taskId) || ambient then []
      else [Start(m.taskId.value, m.toolUseId, isBackgrounded || workflow, isBackgrounded)]
    case TaskNotification => if Truthy(m.taskId) then [End(m.taskId, m.toolUseId)] else []
    case TaskUpdated(terminal, patchBackgrounded) =>
      if !Truthy(m.taskId) then []
      else if terminal then [End(m.taskId, m.toolUseId)]
      else if patchBackgrounded then [Touch(m.taskId.value), ToBackground(m.taskId.value)]
      else [Touch(m.taskId.value)]
    case Init => if Truthy(m.taskId) then [Touch(m.taskId.value)] else []
    case OtherSystem => if Truthy(m.taskId) then [Touch(m.taskId.value)] else []
  }

  predicate SaysBackground(op: Op) { (op.Start? && op.flagged) || op.ToBackground? }

  function ResumeOps(m: Message): seq<Op> {
    if m.User? && !Truthy(m.parent) && |m.toolResults| == 1 && Truthy(m.resumedAgentId)
    then [Resume(m.resumedAgentId.value, m.toolResults[0])] else []
  }

  function NotifiedOps(ns: seq<Notified>): seq<Op> {
    if ns == [] then [] else [End(ns[0].taskId, ns[0].toolUseId)] + NotifiedOps(ns[1..])
  }

  function SpeakOps(m: Message): seq<Op> {
    if m.parent.Some? then [Speak(m.parent.value)] else []
  }

  predicate StartsMainLoopActivity(m: Message) {
    !Truthy(m.parent) && (m.Assistant? || m.User? || m.StreamEvent? || (m.System? && m.body.Init?))
  }

  function PhaseOps(m: Message): seq<Op> {
    if m.Result? then [ResultSeen] else if StartsMainLoopActivity(m) then [MainActivity] else []
  }

  function Ops(m: Message): seq<Op> {
    (if m.System? then SystemOps(m) else []) + ResumeOps(m)
    + (if m.User? then NotifiedOps(m.notified) else []) + SpeakOps(m) + PhaseOps(m)
  }

  function Matching(pending: map<TaskId, Task>, toolUseId: Option<string>): set<TaskId> {
    set id | id in pending && pending[id].toolUseId == toolUseId
  }

  /** The pending tasks an end report settles: the named one, or else every task whose
      tool_use_id matches. */
  function EndedBy(pending: map<TaskId, Task>, taskId: Option<TaskId>, toolUseId: Option<string>): set<TaskId> {
    if Truthy(taskId) && taskId.value in pending then {taskId.value}
    else if Truthy(toolUseId) then Matching(pending, toolUseId)
    else {}
  }

  function MissingFrom(pending: map<TaskId, Task>, live: set<TaskId>): set<TaskId> {
    set id | id in pending && id !in live && pending[id].backgrounded
  }

  function MarkLive(pending: map<TaskId, Task>, live: set<TaskId>): map<TaskId, Task> {
    map id | id in pending :: if id in live then pending[id].(backgrounded := true) else pending[id]
  }

  function SettleAll(s: State, gone: set<TaskId>, now: nat): State {
    if gone == {} then s
    else s.(pending := s.pending - gone, holdAnchorAt := now,
            continuationExpected := s.continuationExpected || s.quiet)
  }

  predicate SpokenFor(s: State, parent: string) {
    exists id :: id in s.pending && s.pending[id].toolUseId == Some(parent)
  }

  function Apply(s: State, op: Op, now: nat): State {
    match op
    case Start(id, toolUseId, background, _) =>
      s.(pending := s.pending[id := Task(toolUseId, background)], holdAnchorAt := now)
    case Resume(id, toolUseId) =>
      if id in s.pending then s
      else s.(pending := s.pending[id := Task(toolUseId, true)], holdAnchorAt := now)
    case End(taskId, toolUseId) => SettleAll(s, EndedBy(s.pending, taskId, toolUseId), now)
    case Level(live) =>
      SettleAll(s.(pending := MarkLive(s.pending, live)), MissingFrom(s.pending, live), now)
    case Touch(id) => if id in s.pending then s.(holdAnchorAt := now) else s
    case ToBackground(id) =>
      if id in s.pending then s.(pending := s.pending[id := s.pending[id].(backgrounded := true)]) else s
    case Speak(parent) => if SpokenFor(s, parent) then s.(holdAnchorAt := now) else s
    case ResultSeen => s.(quiet := true, continuationExpected := false, holdAnchorAt := now)
    case MainActivity => s.(quiet := false, continuationExpected := false)
  }

  /** The tool_use ids of the given tasks. */
  function UsesOf(pending: map<TaskId, Task>, ids: set<TaskId>): set<string> {
    set id | id in ids && id in pending && Truthy(pending[id].toolUseId) :: pending[id].toolUseId.value
  }

  /** The tool_use ids an effect reports as ended. */
  function EndedUses(s: State, op: Op): set<string> {
    match op
    case End(taskId, toolUseId) =>
      (if Truthy(toolUseId) then {toolUseId.value} else {})
      + UsesOf(s.pending, EndedBy(s.pending, taskId, toolUseId))
    case Level(live) => UsesOf(s.pending, MissingFrom(s.pending, live))
    case _ => {}
  }

  function AllEndedUses(s: State, ops: seq<Op>, now: nat): set<string>
    decreases |ops|
  {
    if ops == [] then {} else EndedUses(s, ops[0]) + AllEndedUses(Apply(s, ops[0], now), ops[1..], now)
  }

  function ApplyAll(s: State, ops: seq<Op>, now: nat): State
    decreases |ops|
  {
    if ops == [] then s else ApplyAll(Apply(s, ops[0], now), ops[1..], now)
  }

  function Observed(s: State, m: Message, now: nat): State { ApplyAll(s, Ops(m), now) }

  lemma ApplyAllConcat(s: State, a: seq<Op>, b: seq<Op>, now: nat)
    ensures ApplyAll(s, a + b, now) == ApplyAll(ApplyAll(s, a, now), b, now)
    decreases |a|
  {
    if a == [] {
      assert a + b == b;
    } else {
      assert (a + b)[1..] == a[1..] + b;
      ApplyAllConcat(Apply(s, a[0], now), a[1..], b, now);
    }
  }

  lemma ObservedParts(s: State, m: Message, now: nat)
    ensures Observed(s, m, now) ==
            var system := if m.System? then SystemOps(m) else [];
            var notified := if m.User? then NotifiedOps(m.notified) else [];
            ApplyAll(ApplyAll(ApplyAll(ApplyAll(ApplyAll(s, system, now), ResumeOps(m), now), notified, now),
                SpeakOps(m), now), PhaseOps(m), now)
  {
    var system, notified := if m.System? then SystemOps(m) else [], if m.User? then NotifiedOps(m.notified) else [];
    ApplyAllConcat(s, system + ResumeOps(m) + notified + SpeakOps(m), PhaseOps(m), now);
    ApplyAllConcat(s, system + ResumeOps(m) + notified, SpeakOps(m), now);
    ApplyAllConcat(s, system + ResumeOps(m), notified, now);
    ApplyAllConcat(s, system, ResumeOps(m), now);
  }

  lemma EndedConcat(s: State, a: seq<Op>, b: seq<Op>, now: nat)
    ensures AllEndedUses(s, a + b, now) == AllEndedUses(s, a, now) + AllEndedUses(ApplyAll(s, a, now), b, now)
    decreases |a|
  {
    if a == [] {
      assert a + b == b;
    } else {
      assert (a + b)[1..] == a[1..] + b;
      EndedConcat(Apply(s, a[0], now), a[1..], b, now);
    }
  }

  /** Of five parts only the first and the third report ended tool uses. */
  lemma {:induction false} EndedMiddle(s: State, a: seq<Op>, b: seq<Op>, c: seq<Op>, d: seq<Op>, e: seq<Op>, now: nat)
    requires |b| <= 1 && |d| <= 1 && |e| <= 1
    requires forall op :: op in b || op in d || op in e ==> !op.End? && !op.Level?
    ensures AllEndedUses(s, a + b + c + d + e, now)
         == AllEndedUses(s, a, now) + AllEndedUses(ApplyAll(ApplyAll(s, a, now), b, now), c, now)
  {
    EndedConcat(s, a + b + c + d, e, now);
    EndedConcat(s, a + b + c, d, now);
    EndedConcat(s, a + b, c, now);
    EndedConcat(s, a, b, now);
    ApplyAllConcat(s, a, b, now);
  }

  lemma EndedParts(s: State, m: Message, now: nat)
    ensures AllEndedUses(s, Ops(m), now) ==
            if m.System? then AllEndedUses(s, SystemOps(m), now)
            else if m.User? then AllEndedUses(ApplyAll(s, ResumeOps(m), now), NotifiedOps(m.notified), now)
            else {}
  {
    var system, notified := if m.System? then SystemOps(m) else [], if m.User? then NotifiedOps(m.notified) else [];
    EndedMiddle(s, system, ResumeOps(m), notified, SpeakOps(m), PhaseOps(m), now);
  }

  /** Whether observing `m` reports that a task was started in, or moved to, the background. */
  predicate ReportsBackground(pending: map<TaskId, Task>, m: Message) {
    || (m.System? && exists op :: op in SystemOps(m) && SaysBackground(op))
    || (ResumeOps(m) != [] && ResumeOps(m)[0].id !in pending)
  }

  /** The level applied to the ids in `done` only. */
  ghost function LevelUpTo(s: State, live: set<TaskId>, done: set<TaskId>, now: nat): State {
    SettleAll(s.(pending := MarkLive(s.pending, live * done)), MissingFrom(s.pending, live) * done, now)
  }

  /** The tool_use id of one task. */
  function UseOf(task: Task): set<string> { if Truthy(task.toolUseId) then {task.toolUseId.value} else {} }

  lemma UsesStep(pending: map<TaskId, Task>, missing: set<TaskId>, done: set<TaskId>, id: TaskId)
    ensures UsesOf(pending, missing * (done + {id}))
         == UsesOf(pending, missing * done) + (if id in missing && id in pending then UseOf(pending[id]) else {})
  {
    if id in missing { assert missing * (done + {id}) == missing * done + {id}; }
    else { assert missing * (done + {id}) == missing * done; }
  }

  lemma LevelUpToEnds(s: State, live: set<TaskId>, now: nat)
    ensures LevelUpTo(s, live, {}, now) == s
    ensures LevelUpTo(s, live, s.pending.Keys, now) == Apply(s, Level(live), now)
  {
    assert MarkLive(s.pending, live * {}) == s.pending;
    assert MissingFrom(s.pending, live) * {} == {};
    assert MarkLive(s.pending, live * s.pending.Keys) == MarkLive(s.pending, live);
    assert MissingFrom(s.pending, live) * s.pending.Keys == MissingFrom(s.pending, live);
  }

  lemma LevelUpToStep(s: State, live: set<TaskId>, done: set<TaskId>, id: TaskId, now: nat)
    requires id in s.pending && id !in done
    ensures var t := LevelUpTo(s, live, done, now);
            && id in t.pending && t.pending[id] == s.pending[id]
            && LevelUpTo(s, live, done + {id}, now) ==
               if id in live then t.(pending := t.pending[id := t.pending[id].(backgrounded := true)])
               else if t.pending[id].backgrounded then SettleAll(t, {id}, now)
               else t
  {
    var t, u := LevelUpTo(s, live, done, now), LevelUpTo(s, live, done + {id}, now);
    var missing := MissingFrom(s.pending, live);
    if id in live {
      assert missing * (done + {id}) == missing * done;
      assert u.pending == t.pending[id := t.pending[id].(backgrounded := true)];
    } else {
      assert live * (done + {id}) == live * done;
      if s.pending[id].backgrounded {
        assert missing * (done + {id}) == missing * done + {id};
        assert u.pending == t.pending - {id};
      } else {
        assert missing * (done + {id}) == missing * done;
      }
    }
  }

  // ---------------------------------------------------------------- the tracker object

  class BackgroundTaskTracker {
    var pending: map<TaskId, Task>
    var quiet: bool
    var continuationExpected: bool
    var holdAnchorAt: nat

    function Abs(): State
      reads this
    {
      State(pending, quiet, continuationExpected, holdAnchorAt)
    }

    constructor (now: nat)
      ensures Abs() == State(map[], false, false, now)
    {
      pending, quiet, continuationExpected, holdAnchorAt := map[], false, false, now;
    }

    method Settle(id: TaskId, now: nat) returns (ended: set<string>)
      modifies this
      ensures Abs() == SettleAll(old(Abs()), if id in old(pending) then {id} else {}, now)
      ensures ended == UsesOf(old(pending), {id})
    {
      ended := {};
      if id !in pending { return; }
      var task := pending[id];
      pending := pending - {id};
      if Truthy(task.toolUseId) { ended := {task.toolUseId.value}; }
      if quiet { continuationExpected := true; }
      holdAnchorAt := now;
    }

    method SettleByToolUseId(toolUseId: string, now: nat) returns (ended: set<string>)
      requires toolUseId != ""
      modifies this
      ensures Abs() == SettleAll(old(Abs()),
                Matching(old(pending), Some(toolUseId)), now)
      ensures ended == UsesOf(old(pending), Matching(old(pending), Some(toolUseId)))
    {
      ended := {};
      ghost var s := Abs();
      var todo := pending.Keys;
      while todo != {}
        invariant todo <= s.pending.Keys
        invariant Abs() == SettleAll(s, Matching(s.pending, Some(toolUseId)) - todo, now)
        invariant ended == UsesOf(s.pending, Matching(s.pending, Some(toolUseId)) - todo)
      {
        ghost var gone := Matching(s.pending, Some(toolUseId)) - todo;
        var id :| id in todo;
        todo := todo - {id};
        ghost var next := Matching(s.pending, Some(toolUseId)) - todo;
        assert id in pending && pending[id] == s.pending[id];
        if pending[id].toolUseId == Some(toolUseId) {
          var more := Settle(id, now);
          ended := ended + more;
          assert next == gone + {id};
          assert s.pending - next == s.pending - gone - {id};
        } else {
          assert next == gone;
        }
      }
      assert Matching(s.pending, Some(toolUseId)) - todo == Matching(s.pending, Some(toolUseId));
    }

    method SettleEnded(taskId: Option<TaskId>, toolUseId: Option<string>, now: nat) returns (ended: set<string>)
      modifies this
      ensures Abs() == Apply(old(Abs()), End(taskId, toolUseId), now)
      ensures ended == EndedUses(old(Abs()), End(taskId, toolUseId))
    {
      ended := if Truthy(toolUseId) then {toolUseId.value} else {};
      var more: set<string> := {};
      if Truthy(taskId) && taskId.value in pending {
        more := Settle(taskId.value, now);
      } else if Truthy(toolUseId) {
        more := SettleByToolUseId(toolUseId.value, now);
      }
      ended := ended + more;
    }

    /** One pending task against a level that lists it or does not. */
    method ObserveInLevel(id: TaskId, listed: bool, now: nat) returns (ended: set<string>)
      requires id in pending
      modifies this
      ensures Abs() ==
                if listed then old(Abs()).(pending := old(pending)[id := old(pending)[id].(backgrounded := true)])
                else if old(pending)[id].backgrounded then SettleAll(old(Abs()), {id}, now)
                       else old(Abs())
      ensures ended == if !listed && old(pending)[id].backgrounded then UseOf(old(pending)[id]) else {}
    {
      ended := {};
      if listed {
        pending := pending[id := pending[id].(backgrounded := true)];
      } else if pending[id].backgrounded {
        ended := Settle(id, now);
      }
    }

    /** The `background_tasks_changed` level: tasks in it are known to be backgrounded, known
        backgrounded tasks missing from it are settled. */
    method ObserveLevel(live: set<TaskId>, now: nat) returns (ended: set<string>)
      modifies this
      ensures Abs() == Apply(old(Abs()), Level(live), now)
      ensures ended == EndedUses(old(Abs()), Level(live))
    {
      ended := {};
      ghost var s := Abs();
      var todo := pending.Keys;
      ghost var done: set<TaskId> := {};
      LevelUpToEnds(s, live, now);
      while todo != {}
        invariant todo + done == s.pending.Keys && todo !! done
        invariant Abs() == LevelUpTo(s, live, done, now)
        invariant ended == UsesOf(s.pending, MissingFrom(s.pending, live) * done)
      {
        var id :| id in todo;
        LevelUpToStep(s, live, done, id, now);
        UsesStep(s.pending, MissingFrom(s.pending, live), done, id);
        var more := ObserveInLevel(id, id in live, now);
        ended := ended + more;
        todo, done := todo - {id}, done + {id};
      }
      assert MissingFrom(s.pending, live) * done == MissingFrom(s.pending, live);
    }

    method ObserveSystem(m: Message, now: nat) returns (backgrounded: bool, ended: set<string>)
      requires m.System?
      modifies this
      ensures Abs() == ApplyAll(old(Abs()), SystemOps(m), now)
      ensures ended == AllEndedUses(old(Abs()), SystemOps(m), now)
      ensures backgrounded <==> (exists op :: op in SystemOps(m) && SaysBackground(op))
    {
      backgrounded, ended := false, {};
      ghost var s := Abs();
      if m.body.BackgroundTasksChanged? {
        if m.body.tasks.None? { return; }
        ended := ObserveLevel(LiveIds(m.body.tasks.value), now);
        return;
      }
      if !Truthy(m.taskId) { return; }
      var id := m.taskId.value;
      if m.body.TaskStarted? {
        if m.body.ambient { return; }
        pending := pending[id := Task(m.toolUseId, m.body.isBackgrounded || m.body.workflow)];
        holdAnchorAt := now;
        backgrounded := m.body.isBackgrounded;
        assert backgrounded ==> SaysBackground(SystemOps(m)[0]);
        return;
      }
      if m.body.TaskNotification? || (m.body.TaskUpdated? && m.body.terminal) {
        ended := SettleEnded(m.taskId, m.toolUseId, now);
        return;
      }
      if id in pending { holdAnchorAt := now; }
      assert Abs() == Apply(s, Touch(id), now);
      if !m.body.TaskUpdated? || !m.body.patchBackgrounded { return; }
      if id in pending { pending := pending[id := pending[id].(backgrounded := true)]; }
      assert SystemOps(m) == [Touch(id)] + [ToBackground(id)];
      assert ToBackground(id) in SystemOps(m);
      ApplyAllConcat(s, [Touch(id)], [ToBackground(id)], now);
      EndedConcat(s, [Touch(id)], [ToBackground(id)], now);
      backgrounded := true;
    }

    method ObserveResumedAgent(m: Message, now: nat) returns (resumed: bool)
      modifies this
      ensures Abs() == ApplyAll(old(Abs()), ResumeOps(m), now)
      ensures resumed <==> ResumeOps(m) != [] && ResumeOps(m)[0].id !in old(pending)
    {
      resumed := false;
      if !(m.User? && !Truthy(m.parent)) { return; }
      if |m.toolResults| != 1 || !Truthy(m.resumedAgentId) { return; }
      var id := m.resumedAgentId.value;
      if id in pending { return; }
      pending := pending[id := Task(m.toolResults[0], true)];
      holdAnchorAt := now;
      resumed := true;
    }

    method ObserveNotified(ns: seq<Notified>, now: nat) returns (ended: set<string>)
      modifies this
      ensures Abs() == ApplyAll(old(Abs()), NotifiedOps(ns), now)
      ensures ended == AllEndedUses(old(Abs()), NotifiedOps(ns), now)
    {
      ended := {};
      var i := 0;
      ghost var s := Abs();
      while i < |ns|
        invariant 0 <= i <= |ns|
        invariant ApplyAll(s, NotifiedOps(ns), now) == ApplyAll(Abs(), NotifiedOps(ns[i..]), now)
        invariant AllEndedUses(s, NotifiedOps(ns), now) == ended + AllEndedUses(Abs(), NotifiedOps(ns[i..]), now)
      {
        var more := SettleEnded(ns[i].taskId, ns[i].toolUseId, now);
        ended := ended + more;
        assert ns[i..][1..] == ns[i+1..];
        i := i + 1;
      }
    }

    /** The tail of `observe`: activity of a pending task, then the main loop's phase. */
    method ObserveActivity(m: Message, now: nat)
      modifies this
      ensures Abs() == ApplyAll(ApplyAll(old(Abs()), SpeakOps(m), now), PhaseOps(m), now)
    {
      if m.parent.Some? && SpokenFor(Abs(), m.parent.value) { holdAnchorAt := now; }
      assert Abs() == ApplyAll(old(Abs()), SpeakOps(m), now);
      if m.Result? {
        quiet, continuationExpected, holdAnchorAt := true, false, now;
      } else if StartsMainLoopActivity(m) {
        quiet, continuationExpected := false, false;
      }
    }

    /** The public `observe`: the new state is the message's elementary effects in order. */
    method Observe(m: Message, now: nat) returns (backgrounded: bool, ended: set<string>)
      modifies this
      ensures Abs() == Observed(old(Abs()), m, now)
      ensures ended == AllEndedUses(old(Abs()), Ops(m), now)
      ensures backgrounded <==> ReportsBackground(old(pending), m)
    {
      backgrounded, ended := false, {};
      ObservedParts(Abs(), m, now);
      EndedParts(Abs(), m, now);
      if m.System? { backgrounded, ended := ObserveSystem(m, now); }
      var resumed := ObserveResumedAgent(m, now);
      if resumed { backgrounded := true; }
      if m.User? {
        var more := ObserveNotified(m.notified, now);
        ended := ended + more;
      }
      ObserveActivity(m, now);
    }
  }
}
