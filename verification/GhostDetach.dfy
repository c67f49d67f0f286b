/** Models the ghost sweep of server/claude-sdk.js: sessions without any listener for the grace
    period no longer block a drain. Times are milliseconds. */
module GhostDetach {
  import opened Common

  const GRACE: nat := 180_000

  /** The fields of an active session that the sweep reads and writes, and its run token. */
  datatype Entry = Entry(token: Option<nat>, detached: bool, noListenerSince: Option<nat>)

  /** A missing or zero time counts as unset. */
  function Since(since: Option<nat>, now: nat): nat { if since.Some? && since.value != 0 then since.value else now }

  function SweptEntry(e: Entry, now: nat, heard: bool): Entry {
    if e.detached then e
    else if heard then e.(noListenerSince := None)
    else
      var since := Since(e.noListenerSince, now);
      e.(noListenerSince := Some(since), detached := now - since >= GRACE)
  }

  type Sessions = map<string, Entry>

  /** `heard` are the sessions with a live writer socket or a live mirror. */
  function Swept(s: Sessions, now: nat, heard: set<string>): Sessions {
    map id | id in s :: SweptEntry(s[id], now, id in heard)
  }

  /** Removal is refused when the entry belongs to another run. */
  predicate Refuses(s: Sessions, id: string, expected: Option<nat>) {
    expected.Some? && id in s && s[id].token.Some? && s[id].token != expected
  }

  datatype Step =
    | Register(id: string, token: Option<nat>)
    | Remove(id: string, expected: Option<nat>)
    | Sweep(now: nat, heard: set<string>)

  function Next(s: Sessions, step: Step): Sessions {
    match step
    case Register(id, token) => s[id := Entry(token, false, None)]
    case Remove(id, expected) => if Refuses(s, id, expected) then s else s - {id}
    case Sweep(now, heard) => Swept(s, now, heard)
  }

  function Detached(s: Sessions): set<string> { set id | id in s && s[id].detached }

  function DrainBlocking(s: Sessions): set<string> { set id | id in s && !s[id].detached }

  // ---------------------------------------------------------------- the sessions on the heap

  class Session {
    const token: Option<nat>
    const home: string
    var detached: bool
    var noListenerSince: Option<nat>

    function Abs(): Entry
      reads this
    {
      Entry(token, detached, noListenerSince)
    }

    constructor (home: string, token: Option<nat>)
      ensures Abs() == Entry(token, false, None) && this.home == home
    {
      this.home, this.token, detached, noListenerSince := home, token, false, None;
    }

    method Visit(now: nat, heard: bool)
      modifies this
      ensures Abs() == SweptEntry(old(Abs()), now, heard)
    {
      if detached { return; }
      if heard {
        noListenerSince := None;
        return;
      }
      if noListenerSince.None? || noListenerSince.value == 0 { noListenerSince := Some(now); }
      if now - noListenerSince.value >= GRACE { detached := true; }
    }
  }

  /** `activeSessions`; `order` lists its keys as the map iterates them. */
  class ActiveSessions {
    var sessions: map<string, Session>
    var order: seq<string>
    ghost var view: Sessions

    ghost predicate Valid()
      reads this, sessions.Values
    {
      && sessions.Keys == view.Keys
      && (forall id :: id in sessions ==> sessions[id].home == id && sessions[id].Abs() == view[id])
      && (forall id :: id in order <==> id in sessions)
      && (forall i, j :: 0 <= i < j < |order| ==> order[i] != order[j])
    }

    constructor ()
      ensures Valid() && view == map[]
    {
      sessions, order, view := map[], [], map[];
    }

    method AddSession(id: string, token: Option<nat>)
      requires Valid()
      modifies this
      ensures Valid() && view == Next(old(view), Register(id, token))
    {
      var session := new Session(id, token);
      if id !in sessions { order := order + [id]; }
      sessions := sessions[id := session];
      view := view[id := Entry(token, false, None)];
    }

    /** The keys that stay when one is deleted, in their order. */
    static method Without(order: seq<string>, id: string) returns (kept: seq<string>)
      requires forall i, j :: 0 <= i < j < |order| ==> order[i] != order[j]
      ensures forall x :: x in kept <==> x in order && x != id
      ensures forall i, j :: 0 <= i < j < |kept| ==> kept[i] != kept[j]
    {
      kept := [];
      for i := 0 to |order|
        invariant forall x :: x in kept <==> x in order[..i] && x != id
        invariant forall i, j :: 0 <= i < j < |kept| ==> kept[i] != kept[j]
      {
        assert order[i] !in order[..i];
        if order[i] != id { kept := kept + [order[i]]; }
      }
    }

    method RemoveSession(id: string, expected: Option<nat>) returns (removed: bool)
      requires Valid()
      modifies this
      ensures Valid() && view == Next(old(view), Remove(id, expected)) && removed == !Refuses(old(view), id, expected)
    {
      if expected.Some? && id in sessions && sessions[id].token.Some? && sessions[id].token != expected {
        return false;
      }
      order := Without(order, id);
      sessions := sessions - {id};
      view := view - {id};
      return true;
    }

    method VisitAll(now: nat, heard: set<string>)
      requires Valid()
      modifies sessions.Values
      ensures forall id :: id in sessions ==> sessions[id].Abs() == SweptEntry(view[id], now, id in heard)
    {
      for i := 0 to |order|
        invariant forall k :: 0 <= k < i ==>
                    sessions[order[k]].Abs() == SweptEntry(view[order[k]], now, order[k] in heard)
        invariant forall k :: i <= k < |order| ==> sessions[order[k]].Abs() == view[order[k]]
      {
        assert forall k :: 0 <= k < |order| && k != i ==> sessions[order[k]].home != sessions[order[i]].home;
        sessions[order[i]].Visit(now, order[i] in heard);
      }
      forall id | id in sessions ensures sessions[id].Abs() == SweptEntry(view[id], now, id in heard) {
        var k :| 0 <= k < |order| && order[k] == id;
      }
    }

    method SweepGhostSessions(now: nat, heard: set<string>)
      requires Valid()
      modifies this, sessions.Values
      ensures Valid() && sessions == old(sessions) && view == Next(old(view), Sweep(now, heard))
    {
      VisitAll(now, heard);
      view := Swept(view, now, heard);
    }

    /** The sessions a drain still waits for: all but the detached ones. */
    method GetDrainBlockingSessions() returns (out: seq<string>)
      requires Valid()
      ensures forall id :: id in out <==> id in DrainBlocking(view)
      ensures |out| == |view| - |Detached(view)|
    {
      out := [];
      ghost var listed: set<string> := {};
      for i := 0 to |order|
        invariant forall id :: id in listed <==> id in order[..i] && id in DrainBlocking(view)
        invariant (forall id :: id in out <==> id in listed) && |out| == |listed|
      {
        if !sessions[order[i]].detached {
          out := out + [order[i]];
          listed := listed + {order[i]};
        }
      }
      assert listed == DrainBlocking(view);
      DrainIsTheRest(view);
    }
  }

  /** The drain count is the active sessions minus the detached ones. */
  lemma DrainIsTheRest(s: Sessions)
    ensures |DrainBlocking(s)| == |s| - |Detached(s)|
  {
    assert DrainBlocking(s) + Detached(s) == s.Keys;
    assert DrainBlocking(s) !! Detached(s);
  }

  // ---------------------------------------------------------------- whole runs

  ghost predicate IsRun(ss: seq<Sessions>, steps: seq<Step>) {
    && |ss| == |steps| + 1 && ss[0] == map[]
    && (forall i :: 0 <= i < |steps| ==> ss[i+1] == Next(ss[i], steps[i]))
    && (forall i :: 0 <= i < |steps| && steps[i].Sweep? ==> steps[i].now > 0)
  }

  /** A sweep that finds no listener of session `id`. */
  predicate Quiet(step: Step, id: string) { step.Sweep? && id !in step.heard }

  predicate Registers(step: Step, id: string) { step.Register? && step.id == id }

  /** What ends an unbroken run of quiet sweeps. */
  predicate Breaks(step: Step, id: string) { Registers(step, id) || (step.Sweep? && id in step.heard) }

  /** An unbroken run of quiet sweeps from sweep `i` to sweep `j`. */
  predicate Span(steps: seq<Step>, id: string, i: nat, j: nat) {
    && i <= j < |steps| && Quiet(steps[i], id) && Quiet(steps[j], id)
    && forall k :: i <= k <= j ==> !Breaks(steps[k], id)
  }

  /** No earlier quiet sweep belongs to the same run. */
  predicate IsFirst(steps: seq<Step>, id: string, i: nat)
    requires i <= |steps|
  {
    forall k :: 0 <= k < i && Quiet(steps[k], id) ==> exists m :: k < m < i && Breaks(steps[m], id)
  }

  /** At sweep `j` an unbroken run of quiet sweeps has lasted at least the grace period. */
  predicate LongQuiet(steps: seq<Step>, id: string, j: nat) {
    exists i: nat :: i <= j && Span(steps, id, i, j) && IsFirst(steps, id, i) && steps[j].now - steps[i].now >= GRACE
  }

  predicate Unregistered(steps: seq<Step>, id: string, j: nat, n: nat)
    requires n <= |steps|
  {
    forall k :: j < k < n ==> !Registers(steps[k], id)
  }

  /** Some sweep before `n` ended a long quiet run, and the session was not registered since. */
  predicate DetachedBy(steps: seq<Step>, id: string, n: nat)
    requires n <= |steps|
  {
    exists j: nat :: j < n && LongQuiet(steps, id, j) && Unregistered(steps, id, j, n)
  }

  /** The first sweep of the quiet run that reaches step `n`. */
  function QuietFrom(steps: seq<Step>, id: string, n: nat): (r: Option<nat>)
    requires n <= |steps|
    ensures r.Some? ==>
              && r.value < n && Quiet(steps[r.value], id)
              && forall k :: r.value <= k < n ==> !Breaks(steps[k], id)
    ensures r.Some? ==> IsFirst(steps, id, r.value)
    ensures r.None? ==> IsFirst(steps, id, n)
  {
    if n == 0 || Breaks(steps[n-1], id) then None
    else if Quiet(steps[n-1], id) && QuietFrom(steps, id, n - 1).None? then Some(n - 1)
    else QuietFrom(steps, id, n - 1)
  }

  lemma SpanStartsAtQuietFrom(steps: seq<Step>, id: string, i: nat, j: nat)
    requires Span(steps, id, i, j) && IsFirst(steps, id, i)
    ensures QuietFrom(steps, id, j + 1) == Some(i)
  {
    assert forall m :: i <= m <= j ==> !Breaks(steps[m], id);
  }

  /** A present session is detached exactly by a long quiet run; until then its clock shows the
      first sweep of the current one. */
  predicate EntryOk(e: Entry, steps: seq<Step>, id: string, n: nat)
    requires n <= |steps|
  {
    && (e.detached <==> DetachedBy(steps, id, n))
    && (!e.detached ==>
          if QuietFrom(steps, id, n).Some? then e.noListenerSince == Some(steps[QuietFrom(steps, id, n).value].now)
          else e.noListenerSince == None)
  }

  lemma LongQuietIs(steps: seq<Step>, id: string, j: nat)
    requires j < |steps|
    ensures LongQuiet(steps, id, j) <==>
              Quiet(steps[j], id) && QuietFrom(steps, id, j + 1).Some?
              && steps[j].now - steps[QuietFrom(steps, id, j + 1).value].now >= GRACE
  {
    if LongQuiet(steps, id, j) {
      var i: nat :| i <= j && Span(steps, id, i, j) && IsFirst(steps, id, i) && steps[j].now - steps[i].now >= GRACE;
      SpanStartsAtQuietFrom(steps, id, i, j);
    } else if Quiet(steps[j], id) && QuietFrom(steps, id, j + 1).Some? {
      assert Span(steps, id, QuietFrom(steps, id, j + 1).value, j);
    }
  }

  lemma UnregisteredStep(steps: seq<Step>, id: string, j: nat, n: nat)
    requires j < n < |steps|
    ensures Unregistered(steps, id, j, n + 1) <==> Unregistered(steps, id, j, n) && !Registers(steps[n], id)
  {
    if Unregistered(steps, id, j, n + 1) { assert !Registers(steps[n], id); }
  }

  lemma DetachedByStep(steps: seq<Step>, id: string, n: nat)
    requires n < |steps|
    ensures DetachedBy(steps, id, n + 1) <==>
              LongQuiet(steps, id, n) || (DetachedBy(steps, id, n) && !Registers(steps[n], id))
  {
    forall j: nat | j < n
      ensures Unregistered(steps, id, j, n + 1) <==> Unregistered(steps, id, j, n) && !Registers(steps[n], id)
    {
      UnregisteredStep(steps, id, j, n);
    }
    assert Unregistered(steps, id, n, n + 1);
  }

  lemma EntryStep(ss: seq<Sessions>, steps: seq<Step>, n: nat, id: string)
    requires IsRun(ss, steps) && n < |steps| && id in ss[n+1]
    requires id in ss[n] ==> EntryOk(ss[n][id], steps, id, n)
    ensures EntryOk(ss[n+1][id], steps, id, n + 1)
  {
    assert ss[n+1] == Next(ss[n], steps[n]);
    DetachedByStep(steps, id, n);
    LongQuietIs(steps, id, n);
  }

  lemma {:induction false} EntryAlong(ss: seq<Sessions>, steps: seq<Step>, n: nat, id: string)
    requires IsRun(ss, steps) && n < |ss| && id in ss[n]
    ensures EntryOk(ss[n][id], steps, id, n)
    decreases n
  {
    if n > 0 {
      if id in ss[n-1] { EntryAlong(ss, steps, n - 1, id); }
      EntryStep(ss, steps, n - 1, id);
    }
  }

  /** A session is detached if and only if, since it was last registered, an unbroken run of quiet
      sweeps lasted at least the grace period from its first sweep on; it then stays detached until
      it is registered again. */
  lemma DetachedExactly(ss: seq<Sessions>, steps: seq<Step>, n: nat, id: string)
    requires IsRun(ss, steps) && n < |ss| && id in ss[n]
    ensures ss[n][id].detached <==> DetachedBy(steps, id, n)
  {
    EntryAlong(ss, steps, n, id);
  }

  /** A detached session had no listener at any sweep of a whole grace period. */
  lemma DetachedOnlyAfterGrace(ss: seq<Sessions>, steps: seq<Step>, n: nat, id: string) returns (i: nat, j: nat)
    requires IsRun(ss, steps) && n < |ss| && id in ss[n] && ss[n][id].detached
    ensures i < j < n && steps[i].Sweep? && steps[j].Sweep? && steps[j].now - steps[i].now >= GRACE
    ensures forall k :: i <= k <= j && steps[k].Sweep? ==> id !in steps[k].heard
    ensures forall k :: i <= k < n ==> !Registers(steps[k], id)
  {
    EntryAlong(ss, steps, n, id);
    j :| j < n && LongQuiet(steps, id, j) && Unregistered(steps, id, j, n);
    i :| i <= j && Span(steps, id, i, j) && IsFirst(steps, id, i) && steps[j].now - steps[i].now >= GRACE;
    assert forall k :: i <= k <= j ==> !Breaks(steps[k], id);
  }

  /** The removal would take an entry registered with `token`: it names no run, the entry names none, or
      they are the same. */
  predicate Takes(step: Step, id: string, token: Option<nat>) {
    step.Remove? && step.id == id && (step.expected.None? || token.None? || step.expected == token)
  }

  /** Step `i` registered `id`, and nothing before `n` registered it again or took that entry. */
  ghost predicate StandsSince(steps: seq<Step>, id: string, n: nat, i: nat)
    requires n <= |steps|
  {
    && i < n && Registers(steps[i], id)
    && forall k :: i < k < n ==> !Registers(steps[k], id) && !Takes(steps[k], id, steps[i].token)
  }

  lemma StandsSinceStep(steps: seq<Step>, id: string, n: nat, i: nat)
    requires n < |steps|
    ensures StandsSince(steps, id, n + 1, i) <==>
              if Registers(steps[n], id) then i == n
              else StandsSince(steps, id, n, i) && !Takes(steps[n], id, steps[i].token)
  {
    if StandsSince(steps, id, n + 1, i) && i < n { assert !Registers(steps[n], id); }
  }

  /** A session is present exactly since a registration that no removal of its own run, or of no run in
      particular, followed; its entry is that registration's. Another run's removal leaves it. */
  lemma {:induction false} PresentExactly(ss: seq<Sessions>, steps: seq<Step>, n: nat, id: string)
    requires IsRun(ss, steps) && n < |ss|
    ensures id in ss[n] <==> exists i: nat :: StandsSince(steps, id, n, i)
    ensures forall i: nat :: StandsSince(steps, id, n, i) ==> id in ss[n] && ss[n][id].token == steps[i].token
    decreases n
  {
    if n > 0 {
      var m: nat := n - 1;
      PresentExactly(ss, steps, m, id);
      assert ss[n] == Next(ss[m], steps[m]);
      forall i: nat
        ensures StandsSince(steps, id, n, i) <==>
                  if Registers(steps[m], id) then i == m
                  else StandsSince(steps, id, m, i) && !Takes(steps[m], id, steps[i].token)
      {
        StandsSinceStep(steps, id, m, i);
      }
      if id in ss[m] { var i: nat :| StandsSince(steps, id, m, i); }
    }
  }

  /** Times must be positive: a quiet sweep at time zero does not start the clock. */
  lemma TimeZeroDoesNotStartTheClock(id: string)
    ensures var s := Next(Next(Next(map[], Register(id, None)), Sweep(0, {})), Sweep(GRACE, {}));
            id in s && !s[id].detached
    ensures LongQuiet([Register(id, None), Sweep(0, {}), Sweep(GRACE, {})], id, 2)
  {
    var steps := [Register(id, None), Sweep(0, {}), Sweep(GRACE, {})];
    assert Registers(steps[0], id) && Quiet(steps[1], id) && Quiet(steps[2], id);
    assert Span(steps, id, 1, 2) && IsFirst(steps, id, 1);
  }
}
