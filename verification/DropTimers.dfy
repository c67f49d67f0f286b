/** Models the post-close drop timers of server/agy-cli.js (server/claude-sdk.js has the same pair
    of functions) and the registry preamble of a new run. Times are milliseconds. */
module DropTimers {
  import opened Common
  import opened SessionRegistry

  const RETENTION: nat := 120_000

  /** A timer of the runtime; `run` is the run that scheduled it. */
  datatype Timer = Timer(key: string, due: nat, run: nat)

  /** `live` are the runtime's armed timers, `pending` the program's own map of them. */
  datatype Timers = Timers(pending: map<string, nat>, live: map<nat, Timer>, nextId: nat)

  function Cancelled(t: Timers, key: string): Timers {
    if key in t.pending then t.(live := t.live - {t.pending[key]}, pending := t.pending - {key}) else t
  }

  function Scheduled(t: Timers, key: string, now: nat, run: nat): Timers {
    var c := Cancelled(t, key);
    c.(live := c.live[t.nextId := Timer(key, now + RETENTION, run)],
       pending := c.pending[key := t.nextId], nextId := t.nextId + 1)
  }

  class PendingDrops {
    var pending: map<string, nat>
    var live: map<nat, Timer>
    var nextId: nat

    function Abs(): Timers
      reads this
    {
      Timers(pending, live, nextId)
    }

    constructor ()
      ensures Abs() == Timers(map[], map[], 0)
    {
      pending, live, nextId := map[], map[], 0;
    }

    method CancelPendingDrop(key: string)
      modifies this
      ensures Abs() == if key == "" then old(Abs()) else Cancelled(old(Abs()), key)
    {
      if key == "" || key !in pending { return; }
      live := live - {pending[key]};
      pending := pending - {key};
    }

    method ScheduleBufferDrop(key: string, now: nat, run: nat)
      modifies this
      ensures Abs() == if key == "" then old(Abs()) else Scheduled(old(Abs()), key, now, run)
    {
      if key == "" { return; }
      CancelPendingDrop(key);
      var id := nextId;
      nextId := nextId + 1;
      live := live[id := Timer(key, now + RETENTION, run)];
      pending := pending[key := id];
    }
  }

  // ---------------------------------------------------------------- runs, entries and timers

  /** An entry of the registry: the run it holds frames of, and whether it is active. */
  datatype Slot = Slot(run: nat, active: bool)

  /** `running` maps a key to the run that has not yet done its last step, `latest` to the last run
      started on it. */
  datatype System = System(
    now: nat, slots: map<string, Slot>, timers: Timers, running: map<string, nat>,
    latest: map<string, nat>, nextRun: nat)

  /** `End` is the last thing a run does, and does nothing to the registry: what it did before is up to
      its exit. A normal end deactivates, schedules and ends; a throwing spawn and an owner's stop end
      at once; a throw in the close handler may come between deactivating and scheduling; an error
      path may record after scheduling. */
  datatype Step =
    | StartRun(key: string)
    | Emit(key: string)
    | Deactivate(key: string)
    | Schedule(key: string)
    | End(key: string)
    | Fire(id: nat)
    | Evict(key: string)
    | Advance(to: nat)

  /** Runs on one key do not overlap; a timer fires no later than it is due. */
  predicate Enabled(s: System, step: Step) {
    match step
    case StartRun(key) => key != "" && key !in s.running
    case Emit(key) => key in s.running
    case Deactivate(key) => key in s.running
    case Schedule(key) => key in s.running
    case End(key) => key in s.running
    case Fire(id) => id in s.timers.live && s.timers.live[id].due <= s.now
    case Evict(key) => key in s.slots && !s.slots[key].active
    case Advance(to) => s.now <= to && forall id :: id in s.timers.live ==> to <= s.timers.live[id].due
  }

  function Next(s: System, step: Step): System
    requires Enabled(s, step)
  {
    match step
    case StartRun(key) =>
      s.(timers := Cancelled(s.timers, key), slots := s.slots[key := Slot(s.nextRun, true)],
         running := s.running[key := s.nextRun], latest := s.latest[key := s.nextRun], nextRun := s.nextRun + 1)
    case Emit(key) =>
      if key in s.slots then s else s.(slots := s.slots[key := Slot(s.running[key], true)])
    case Deactivate(key) =>
      if key in s.slots then s.(slots := s.slots[key := s.slots[key].(active := false)]) else s
    case Schedule(key) => s.(timers := Scheduled(s.timers, key, s.now, s.running[key]))
    case End(key) => s.(running := s.running - {key})
    case Fire(id) =>
      var key := s.timers.live[id].key;
      s.(timers := s.timers.(live := s.timers.live - {id}, pending := s.timers.pending - {key}),
         slots := s.slots - {key})
    case Evict(key) => s.(slots := s.slots - {key})
    case Advance(to) => s.(now := to)
  }

  ghost predicate IsRun(ss: seq<System>, steps: seq<Step>) {
    && |ss| == |steps| + 1
    && ss[0] == System(ss[0].now, map[], Timers(map[], map[], 0), map[], map[], 0)
    && forall i :: 0 <= i < |steps| ==> Enabled(ss[i], steps[i]) && ss[i+1] == Next(ss[i], steps[i])
  }

  /** Armed timers and the program's map name each other: at most one armed timer per key. */
  predicate OnePerKey(t: Timers) {
    && (forall k :: k in t.pending ==> t.pending[k] in t.live && t.live[t.pending[k]].key == k)
    && (forall id :: id in t.live ==>
          id < t.nextId && t.live[id].key in t.pending && t.pending[t.live[id].key] == id)
  }

  predicate SlotsOk(s: System) {
    && (forall k :: k in s.running ==> k in s.latest && s.latest[k] == s.running[k])
    && (forall k :: k in s.slots ==> k in s.latest && s.slots[k].run == s.latest[k])
    && (forall id :: id in s.timers.live ==>
          s.timers.live[id].key in s.latest && s.timers.live[id].run == s.latest[s.timers.live[id].key])
  }

  predicate DueInTime(s: System) {
    forall id :: id in s.timers.live ==> s.now <= s.timers.live[id].due <= s.now + RETENTION
  }

  lemma CancelledOk(t: Timers, key: string)
    requires OnePerKey(t)
    ensures OnePerKey(Cancelled(t, key)) && key !in Cancelled(t, key).pending
    ensures forall id :: id in Cancelled(t, key).live <==> id in t.live && t.live[id].key != key
    ensures forall k :: k != key && k in t.pending ==>
              k in Cancelled(t, key).pending && Cancelled(t, key).pending[k] == t.pending[k]
  {
  }

  lemma TimersStep(s: System, step: Step)
    requires OnePerKey(s.timers) && DueInTime(s) && Enabled(s, step)
    ensures OnePerKey(Next(s, step).timers) && DueInTime(Next(s, step))
  {
    match step
    case StartRun(key) => CancelledOk(s.timers, key);
    case Schedule(key) => CancelledOk(s.timers, key);
    case _ =>
  }

  lemma SlotsStep(s: System, step: Step)
    requires OnePerKey(s.timers) && SlotsOk(s) && Enabled(s, step)
    ensures SlotsOk(Next(s, step))
  {
    match step
    case StartRun(key) => CancelledOk(s.timers, key);
    case Schedule(key) => CancelledOk(s.timers, key);
    case _ =>
  }

  lemma {:induction false} InvAlong(ss: seq<System>, steps: seq<Step>, i: nat)
    requires IsRun(ss, steps) && i < |ss|
    ensures OnePerKey(ss[i].timers) && SlotsOk(ss[i]) && DueInTime(ss[i])
    decreases i
  {
    if i > 0 {
      InvAlong(ss, steps, i - 1);
      TimersStep(ss[i-1], steps[i-1]);
      SlotsStep(ss[i-1], steps[i-1]);
    }
  }

  /** There is at most one armed timer per key, and the program's map always knows it. */
  lemma AtMostOneTimerPerKey(ss: seq<System>, steps: seq<Step>, i: nat, a: nat, b: nat)
    requires IsRun(ss, steps) && i < |ss| && a in ss[i].timers.live && b in ss[i].timers.live
    requires ss[i].timers.live[a].key == ss[i].timers.live[b].key
    ensures a == b
    ensures ss[i].timers.live[a].key in ss[i].timers.pending && ss[i].timers.pending[ss[i].timers.live[a].key] == a
  {
    InvAlong(ss, steps, i);
  }

  /** A timer that fires removes frames of the very run that scheduled it, never an entry opened by
      a later run. */
  lemma DropNeverHitsLaterRun(ss: seq<System>, steps: seq<Step>, i: nat)
    requires IsRun(ss, steps) && i < |steps| && steps[i].Fire?
    ensures var timer := ss[i].timers.live[steps[i].id];
            && (timer.key in ss[i].slots ==> ss[i].slots[timer.key].run == timer.run)
            && timer.key in ss[i].latest && ss[i].latest[timer.key] == timer.run
            && ss[i+1].slots == ss[i].slots - {timer.key}
  {
    InvAlong(ss, steps, i);
    assert ss[i+1] == Next(ss[i], steps[i]);
  }

  // ---------------------------------------------------------------- what an ended run leaves

  /** The run on `key` ends at step `k`, and up to step `i` none has started on it again. */
  predicate LastEnded(steps: seq<Step>, key: string, k: nat, i: nat)
    requires i <= |steps|
  {
    k < i && steps[k] == End(key) && forall m :: k < m < i ==> steps[m] != StartRun(key)
  }

  /** What a run can check as it ends: its key has a drop scheduled, or no entry at all. */
  predicate Covered(s: System, key: string) { key in s.timers.pending || key !in s.slots }

  predicate Evicted(steps: seq<Step>, key: string, k: nat, i: nat)
    requires i <= |steps|
  {
    exists m :: k < m < i && steps[m] == Evict(key)
  }

  predicate DueBy(s: System, key: string, due: nat) {
    key in s.timers.pending ==>
      s.timers.pending[key] in s.timers.live && s.timers.live[s.timers.pending[key]].due <= due
  }

  /** After the end, while the key is not reopened: a covered key stays covered, by a timer that is due
      in time; an uncovered one has no timer, and its entry stays unless it is evicted. */
  predicate LeftBehind(s: System, key: string, covered: bool, due: nat, evicted: bool) {
    && key !in s.running && DueBy(s, key, due)
    && if covered then Covered(s, key) else key !in s.timers.pending && (key in s.slots <==> !evicted)
  }

  lemma LeftBehindStep(s: System, step: Step, key: string, covered: bool, due: nat, evicted: bool)
    requires OnePerKey(s.timers) && LeftBehind(s, key, covered, due, evicted)
    requires Enabled(s, step) && step != StartRun(key)
    ensures LeftBehind(Next(s, step), key, covered, due, evicted || step == Evict(key))
  {
    match step
    case StartRun(other) => CancelledOk(s.timers, other);
    case Schedule(other) => CancelledOk(s.timers, other);
    case _ =>
  }

  lemma JustEnded(s: System, key: string)
    requires OnePerKey(s.timers) && DueInTime(s) && Enabled(s, End(key))
    ensures LeftBehind(Next(s, End(key)), key, Covered(s, key), s.now + RETENTION, false)
  {
  }

  lemma EvictedStep(steps: seq<Step>, key: string, k: nat, i: nat)
    requires k < i < |steps|
    ensures Evicted(steps, key, k, i + 1) <==> Evicted(steps, key, k, i) || steps[i] == Evict(key)
  {
  }

  lemma {:induction false} LeftBehindAlong(ss: seq<System>, steps: seq<Step>, key: string, k: nat, i: nat)
    requires IsRun(ss, steps) && i < |ss| && LastEnded(steps, key, k, i)
    ensures LeftBehind(ss[i], key, Covered(ss[k], key), ss[k].now + RETENTION, Evicted(steps, key, k, i))
    decreases i
  {
    InvAlong(ss, steps, i - 1);
    if k < i - 1 {
      LeftBehindAlong(ss, steps, key, k, i - 1);
      EvictedStep(steps, key, k, i - 1);
      LeftBehindStep(ss[i-1], steps[i-1], key, Covered(ss[k], key), ss[k].now + RETENTION,
                     Evicted(steps, key, k, i - 1));
    } else {
      JustEnded(ss[k], key);
    }
  }

  lemma NoneOverdue(s: System, key: string, due: nat)
    requires DueInTime(s) && DueBy(s, key, due) && due < s.now
    ensures key !in s.timers.pending
  {
  }

  /** Once a run has ended, its key was not reopened and the retention time has passed, the entry is
      gone if and only if the run ended covered, or its inactive entry was evicted since. */
  lemma EndedEntryIsGoneExactly(ss: seq<System>, steps: seq<Step>, key: string, k: nat, i: nat)
    requires IsRun(ss, steps) && i < |ss| && LastEnded(steps, key, k, i)
    requires ss[k].now + RETENTION < ss[i].now
    ensures key !in ss[i].slots <==> Covered(ss[k], key) || Evicted(steps, key, k, i)
  {
    InvAlong(ss, steps, i);
    LeftBehindAlong(ss, steps, key, k, i);
    NoneOverdue(ss[i], key, ss[k].now + RETENTION);
  }

  /** No run has started on the key between steps `a` and `k`. */
  predicate SameRun(steps: seq<Step>, key: string, a: nat, k: nat)
    requires k <= |steps|
  {
    a < k && forall m :: a < m < k ==> steps[m] != StartRun(key)
  }

  /** The key has a timer that is not due before `due`, as long as it is not that late. */
  predicate ArmedUntil(s: System, key: string, due: nat) {
    s.now < due ==>
      && key in s.timers.pending && s.timers.pending[key] in s.timers.live
      && due <= s.timers.live[s.timers.pending[key]].due
  }

  lemma ArmedStep(s: System, step: Step, key: string, due: nat)
    requires OnePerKey(s.timers) && ArmedUntil(s, key, due) && due <= s.now + RETENTION
    requires Enabled(s, step) && step != StartRun(key)
    ensures ArmedUntil(Next(s, step), key, due) && s.now <= Next(s, step).now
  {
    match step
    case StartRun(other) => CancelledOk(s.timers, other);
    case Schedule(other) => CancelledOk(s.timers, other);
    case _ =>
  }

  lemma {:induction false} TimerHolds(ss: seq<System>, steps: seq<Step>, key: string, a: nat, k: nat)
    requires IsRun(ss, steps) && k < |ss| && SameRun(steps, key, a, k) && steps[a] == Schedule(key)
    ensures ArmedUntil(ss[k], key, ss[a].now + RETENTION) && ss[a].now <= ss[k].now
    decreases k
  {
    InvAlong(ss, steps, k - 1);
    if a < k - 1 {
      TimerHolds(ss, steps, key, a, k - 1);
      ArmedStep(ss[k-1], steps[k-1], key, ss[a].now + RETENTION);
    } else {
      CancelledOk(ss[a].timers, key);
      assert ss[k] == Next(ss[a], Schedule(key));
    }
  }

  /** An exit within the retention time of a drop its run scheduled is covered, whatever it records or
      deactivates in between. */
  lemma ScheduledExitIsCovered(ss: seq<System>, steps: seq<Step>, key: string, a: nat, k: nat)
    requires IsRun(ss, steps) && k < |steps| && SameRun(steps, key, a, k) && steps[a] == Schedule(key)
    requires steps[k] == End(key) && ss[k].now < ss[a].now + RETENTION
    ensures Covered(ss[k], key)
  {
    TimerHolds(ss, steps, key, a, k);
  }

  /** A live entry with no timer: neither a drop nor an eviction can take it. */
  predicate Untouchable(s: System, key: string) {
    key in s.slots && s.slots[key].active && key !in s.timers.pending
  }

  /** No part of the terminal block of the run on `key`. */
  predicate Bare(step: Step, key: string) {
    step != StartRun(key) && step != Deactivate(key) && step != Schedule(key)
  }

  lemma {:induction false} BareKeepsEntry(ss: seq<System>, steps: seq<Step>, key: string, a: nat, k: nat)
    requires IsRun(ss, steps) && a < k < |ss| && steps[a] == StartRun(key)
    requires forall m :: a < m < k ==> Bare(steps[m], key)
    ensures Untouchable(ss[k], key)
    decreases k
  {
    InvAlong(ss, steps, k - 1);
    var s, step := ss[k-1], steps[k-1];
    assert ss[k] == Next(s, step);
    if a < k - 1 {
      assert Bare(step, key);
      BareKeepsEntry(ss, steps, key, a, k - 1);
      match step
      case StartRun(other) => CancelledOk(s.timers, other);
      case Schedule(other) => CancelledOk(s.timers, other);
      case _ =>
    } else {
      CancelledOk(s.timers, key);
    }
  }

  /** A run that ends before its terminal block (its spawn throws, or its owner stops it) leaves an
      entry that stays for as long as its key is not reopened: active and without a timer, it is out
      of reach of every drop and eviction. */
  lemma BareExitStrandsTheEntry(ss: seq<System>, steps: seq<Step>, key: string, a: nat, k: nat, i: nat)
    requires IsRun(ss, steps) && a < k < i < |ss| && steps[a] == StartRun(key) && steps[k] == End(key)
    requires forall m :: a < m < i ==> Bare(steps[m], key)
    ensures Untouchable(ss[i], key)
    ensures i < |steps| ==> steps[i] != Evict(key) && (steps[i].Fire? ==> ss[i].timers.live[steps[i].id].key != key)
  {
    InvAlong(ss, steps, i);
    BareKeepsEntry(ss, steps, key, a, i);
    if i < |steps| { assert Enabled(ss[i], steps[i]); }
  }

  // ---------------------------------------------------------------- exits that leave an entry

  function Begun(now: nat): System { System(now, map[], Timers(map[], map[], 0), map[], map[], 0) }

  /** The spawn throws, or the owner stops the turn: the entry is still there, active, after any time. */
  lemma FailedSpawnLeavesEntry(key: string, now: nat, later: nat) returns (ss: seq<System>, steps: seq<Step>)
    requires key != "" && now <= later
    ensures IsRun(ss, steps) && steps == [StartRun(key), Emit(key), End(key), Advance(later)]
    ensures ss[0].now == now && ss[4].now == later && key in ss[4].slots && ss[4].slots[key].active
  {
    steps := [StartRun(key), Emit(key), End(key), Advance(later)];
    var s0 := Begun(now);
    var s1 := Next(s0, steps[0]);
    var s2 := Next(s1, steps[1]);
    var s3 := Next(s2, steps[2]);
    ss := [s0, s1, s2, s3, Next(s3, steps[3])];
  }

  /** The close handler throws after deactivating: the entry is still there after any time, inactive. */
  lemma FailedCloseLeavesEntry(key: string, now: nat, later: nat) returns (ss: seq<System>, steps: seq<Step>)
    requires key != "" && now <= later
    ensures IsRun(ss, steps) && steps == [StartRun(key), Deactivate(key), End(key), Advance(later)]
    ensures ss[0].now == now && ss[4].now == later && key in ss[4].slots && !ss[4].slots[key].active
  {
    steps := [StartRun(key), Deactivate(key), End(key), Advance(later)];
    var s0 := Begun(now);
    var s1 := Next(s0, steps[0]);
    var s2 := Next(s1, steps[1]);
    var s3 := Next(s2, steps[2]);
    ss := [s0, s1, s2, s3, Next(s3, steps[3])];
  }

  function Deserted(key: string, now: nat): System {
    System(now, map[], Timers(map[], map[], 1), map[key := 0], map[key := 0], 1)
  }

  lemma DropFires(key: string, now: nat) returns (ss: seq<System>, steps: seq<Step>)
    requires key != ""
    ensures IsRun(ss, steps) && ss[0] == Begun(now) && |ss| == 6 && ss[5] == Deserted(key, now + RETENTION)
    ensures steps == [StartRun(key), Deactivate(key), Schedule(key), Advance(now + RETENTION), Fire(0)]
  {
    steps := [StartRun(key), Deactivate(key), Schedule(key), Advance(now + RETENTION), Fire(0)];
    var armed := Timers(map[key := 0], map[0 := Timer(key, now + RETENTION, 0)], 1);
    var s1 := Next(Begun(now), steps[0]);
    var s2 := Next(s1, steps[1]);
    var s3 := System(now, map[key := Slot(0, false)], armed, map[key := 0], map[key := 0], 1);
    assert s3 == Next(s2, steps[2]);
    var s4 := Next(s3, steps[3]);
    assert Deserted(key, now + RETENTION) == Next(s4, steps[4]);
    ss := [Begun(now), s1, s2, s3, s4, Deserted(key, now + RETENTION)];
  }

  /** An error path takes longer than the retention time between scheduling the drop and recording its
      frame: the record opens a new entry, which is still there, active, after any time. */
  lemma LateRecordLeavesEntry(key: string, now: nat, later: nat) returns (ss: seq<System>, steps: seq<Step>)
    requires key != "" && now + RETENTION <= later
    ensures IsRun(ss, steps)
    ensures steps == [StartRun(key), Deactivate(key), Schedule(key), Advance(now + RETENTION), Fire(0), Emit(key),
                      End(key), Advance(later)]
    ensures ss[0].now == now && ss[8].now == later && key in ss[8].slots && ss[8].slots[key].active
  {
    ss, steps := DropFires(key, now);
    var s6 := Next(ss[5], Emit(key));
    var s7 := Next(s6, End(key));
    ss, steps := ss + [s6, s7, Next(s7, Advance(later))], steps + [Emit(key), End(key), Advance(later)];
  }

  // ---------------------------------------------------------------- the preamble of a new run

  function DropStale(v: View, key: string): View {
    if key in v.entries && !v.entries[key].active then Dropped(v, key) else v
  }

  /** What `spawnAntigravity` does to the registry before the run: a temporary entry is opened,
      stale entries are dropped, the temporary one is rekeyed and the target opened. Without a socket
      there is no connection id (""): the key of the run stays unset, and nothing is opened. */
  ghost function Preamble(v: View, connection: string, session: string): View {
    if connection == "" then DropStale(v, session)
    else
      var v1 := Opened(DropStale(v, connection), connection);
      var v2 := if session != connection then DropStale(v1, session) else v1;
      var v3 := if session != connection && Rekeyed(v2, connection, session).Some?
                then Rekeyed(v2, connection, session).value else v2;
      Opened(v3, session)
  }

  predicate Idle(v: View, key: string) { key in v.entries ==> !v.entries[key].active }

  lemma OpenedFresh(v: View, key: string)
    requires ViewOk(v) && key !in v.entries
    ensures key in Opened(v, key).entries && Opened(v, key).entries[key] == NewEntry(v)
    ensures forall k :: k != key && k in Opened(v, key).entries ==>
              k in v.entries && Opened(v, key).entries[k] == v.entries[k]
  {
  }

  lemma RekeyMoves(v: View, connection: string, session: string)
    requires connection != session && connection in v.entries && session !in v.entries
    ensures Rekeyed(v, connection, session).Some?
    ensures var w := Opened(Rekeyed(v, connection, session).value, session);
            && session in w.entries && w.entries[session].ring == v.entries[connection].ring
            && w.entries[session].active && connection !in w.entries
  {
  }

  /** With a socket and no live run on either key, the new run starts on a fresh live entry with an
      empty ring, and the temporary key is free again. */
  lemma PreambleStartsClean(v: View, connection: string, session: string)
    requires ViewOk(v) && connection != "" && Idle(v, connection) && Idle(v, session)
    ensures var w := Preamble(v, connection, session);
            && session in w.entries && w.entries[session].active
            && w.entries[session].ring == Ring(Max(1, v.capacity), [], 0)
            && (connection != session ==> connection !in w.entries)
  {
    var d := DropStale(v, connection);
    OpenedFresh(d, connection);
    if session != connection { RekeyMoves(DropStale(Opened(d, connection), session), connection, session); }
  }

  /** Without a socket nothing is opened: the stale entry of the session goes, a live one stays, and
      every other entry is untouched. */
  lemma PreambleWithoutSocket(v: View, session: string)
    ensures var w := Preamble(v, "", session);
            && w.tick == v.tick
            && (session in w.entries <==> session in v.entries && v.entries[session].active)
            && forall k :: k != session || !Idle(v, session) ==>
                 (k in w.entries <==> k in v.entries) && (k in v.entries ==> w.entries[k] == v.entries[k])
  {
  }
}
