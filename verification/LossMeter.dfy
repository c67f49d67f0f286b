/** Models the interval arithmetic of scripts/b103-loss-meter.js. Times are whole milliseconds,
    `pre` and `post` whole seconds. */
module LossMeter {
  import opened Common

  /** A log mark; the marks of server operations have no session and no messages. */
  datatype Mark = Mark(t: int, session: string, messagesSoFar: int)

  /** What makes two marks duplicates. */
  function Key(m: Mark): (int, string) { (m.t, m.session) }

  datatype EndKind = DrainFinished | NextRestart | PostCap

  datatype Interval = Interval(start: int, end: int, endKind: EndKind, lo: int, hi: int)

  datatype Cause = MemoryGuard | Manual

  datatype Nearest = Nearest(op: nat, deltaMs: int)

  /** `hit` is the first interval that contains the event: a server-op event has one, an organic one
      has none. */
  datatype Classified = Classified(hit: Option<nat>, cause: Option<Cause>, nearest: Option<Nearest>)

  function Abs(x: int): int { if x < 0 then -x else x }

  // ---------------------------------------------------------------- deduplicate and sort

  predicate HasKey(marks: seq<Mark>, key: (int, string)) { exists i :: 0 <= i < |marks| && Key(marks[i]) == key }

  /** The first mark of every (time, session) pair, in order. */
  function Dedup(marks: seq<Mark>): seq<Mark> {
    if marks == [] then []
    else
      var init, last := marks[..|marks|-1], marks[|marks|-1];
      if HasKey(init, Key(last)) then Dedup(init) else Dedup(init) + [last]
  }

  /** Puts `x` behind the last mark that is not later. */
  function Insert(sorted: seq<Mark>, x: Mark): seq<Mark> {
    if sorted == [] || sorted[|sorted|-1].t <= x.t then sorted + [x]
    else Insert(sorted[..|sorted|-1], x) + [sorted[|sorted|-1]]
  }

  /** `Array.prototype.sort` by time, which is stable. */
  function SortByTime(marks: seq<Mark>): seq<Mark> {
    if marks == [] then [] else Insert(SortByTime(marks[..|marks|-1]), marks[|marks|-1])
  }

  predicate Sorted(marks: seq<Mark>) { forall i, j :: 0 <= i < j < |marks| ==> marks[i].t <= marks[j].t }

  /** The marks of one time, in order. */
  function AtTime(marks: seq<Mark>, t: int): seq<Mark> {
    if marks == [] then []
    else AtTime(marks[..|marks|-1], t) + (if marks[|marks|-1].t == t then [marks[|marks|-1]] else [])
  }

  predicate Distinct(marks: seq<Mark>) { forall i, j :: 0 <= i < j < |marks| ==> Key(marks[i]) != Key(marks[j]) }

  lemma HasKeySnoc(marks: seq<Mark>, m: Mark)
    ensures forall key :: HasKey(marks + [m], key) <==> HasKey(marks, key) || key == Key(m)
  {
    assert (marks + [m])[|marks|] == m;
    forall key, i | 0 <= i < |marks| && Key(marks[i]) == key ensures HasKey(marks + [m], key) {
      assert (marks + [m])[i] == marks[i];
    }
  }

  method DedupSort(marks: seq<Mark>) returns (r: seq<Mark>)
    ensures r == SortByTime(Dedup(marks))
  {
    var seen: set<(int, string)> := {};
    var kept := [];
    for i := 0 to |marks|
      invariant forall key :: key in seen <==> HasKey(marks[..i], key)
      invariant kept == Dedup(marks[..i])
    {
      assert marks[..i+1] == marks[..i] + [marks[i]] && marks[..i+1][..i] == marks[..i];
      HasKeySnoc(marks[..i], marks[i]);
      if Key(marks[i]) !in seen {
        seen := seen + {Key(marks[i])};
        kept := kept + [marks[i]];
      }
    }
    assert marks[..|marks|] == marks;
    r := SortByTime(kept);
  }

  lemma {:induction false} InsertAdds(sorted: seq<Mark>, x: Mark)
    ensures |Insert(sorted, x)| == |sorted| + 1
    ensures forall m :: m in Insert(sorted, x) <==> m in sorted || m == x
    decreases |sorted|
  {
    if sorted != [] && sorted[|sorted|-1].t > x.t {
      InsertAdds(sorted[..|sorted|-1], x);
      assert sorted == sorted[..|sorted|-1] + [sorted[|sorted|-1]];
    }
  }

  lemma {:induction false} InsertSorted(sorted: seq<Mark>, x: Mark)
    requires Sorted(sorted)
    ensures Sorted(Insert(sorted, x))
    decreases |sorted|
  {
    if sorted != [] && sorted[|sorted|-1].t > x.t {
      var init, last := sorted[..|sorted|-1], sorted[|sorted|-1];
      InsertSorted(init, x);
      InsertAdds(init, x);
      var r := Insert(init, x);
      forall i | 0 <= i < |r| ensures r[i].t <= last.t { assert r[i] in r; }
    }
  }

  lemma {:induction false} InsertAtTime(sorted: seq<Mark>, x: Mark, t: int)
    ensures AtTime(Insert(sorted, x), t) == AtTime(sorted, t) + (if x.t == t then [x] else [])
    decreases |sorted|
  {
    if sorted == [] || sorted[|sorted|-1].t <= x.t {
      assert (sorted + [x])[..|sorted|] == sorted;
    } else {
      var init, last := sorted[..|sorted|-1], sorted[|sorted|-1];
      InsertAtTime(init, x, t);
      InsertAdds(init, x);
      assert (Insert(init, x) + [last])[..|sorted|] == Insert(init, x);
    }
  }

  lemma {:induction false} SortKeepsMarks(marks: seq<Mark>)
    ensures |SortByTime(marks)| == |marks|
    ensures forall m :: m in SortByTime(marks) <==> m in marks
    decreases |marks|
  {
    if marks != [] {
      SortKeepsMarks(marks[..|marks|-1]);
      InsertAdds(SortByTime(marks[..|marks|-1]), marks[|marks|-1]);
      assert marks == marks[..|marks|-1] + [marks[|marks|-1]];
    }
  }

  /** Sorting orders the marks by time and keeps, for every time, its marks in their order. */
  lemma {:induction false} SortIsStable(marks: seq<Mark>, t: int)
    ensures Sorted(SortByTime(marks)) && AtTime(SortByTime(marks), t) == AtTime(marks, t)
    decreases |marks|
  {
    if marks != [] {
      SortIsStable(marks[..|marks|-1], t);
      InsertSorted(SortByTime(marks[..|marks|-1]), marks[|marks|-1]);
      InsertAtTime(SortByTime(marks[..|marks|-1]), marks[|marks|-1], t);
    }
  }

  lemma {:induction false} InsertDistinct(sorted: seq<Mark>, x: Mark)
    requires Distinct(sorted) && !HasKey(sorted, Key(x))
    ensures Distinct(Insert(sorted, x))
    decreases |sorted|
  {
    if sorted != [] && sorted[|sorted|-1].t > x.t {
      InsertDistinct(sorted[..|sorted|-1], x);
      InsertAdds(sorted[..|sorted|-1], x);
      var r, last := Insert(sorted[..|sorted|-1], x), sorted[|sorted|-1];
      forall i | 0 <= i < |r| ensures Key(r[i]) != Key(last) { assert r[i] in r; }
    }
  }

  lemma {:induction false} SortDistinct(marks: seq<Mark>)
    requires Distinct(marks)
    ensures Distinct(SortByTime(marks))
    decreases |marks|
  {
    if marks != [] {
      SortDistinct(marks[..|marks|-1]);
      SortKeepsMarks(marks[..|marks|-1]);
      var r := SortByTime(marks[..|marks|-1]);
      forall i | 0 <= i < |r| ensures Key(r[i]) != Key(marks[|marks|-1]) { assert r[i] in marks[..|marks|-1]; }
      InsertDistinct(r, marks[|marks|-1]);
    }
  }

  /** Deduplication keeps one mark of every key, and it is the first. */
  lemma {:induction false} DedupKeepsFirstOfEachKey(marks: seq<Mark>, i: nat)
    ensures Distinct(Dedup(marks))
    ensures forall m :: m in Dedup(marks) ==> m in marks
    ensures i < |marks| && !HasKey(marks[..i], Key(marks[i])) ==> marks[i] in Dedup(marks)
    ensures forall key :: HasKey(Dedup(marks), key) <==> HasKey(marks, key)
    decreases |marks|
  {
    if marks != [] {
      var init, last := marks[..|marks|-1], marks[|marks|-1];
      DedupKeepsFirstOfEachKey(init, i);
      assert marks == init + [last];
      HasKeySnoc(init, last);
      HasKeySnoc(Dedup(init), last);
      if i < |init| { assert init[..i] == marks[..i]; }
    }
  }

  predicate Increasing(marks: seq<Mark>) { forall i, j :: 0 <= i < j < |marks| ==> marks[i].t < marks[j].t }

  /** Deduplicated and sorted operation marks have strictly increasing times, and no time is lost. */
  lemma OperationMarksIncrease(marks: seq<Mark>)
    requires forall m :: m in marks ==> m.session == ""
    ensures Increasing(SortByTime(Dedup(marks)))
    ensures forall m :: m in marks ==> HasKey(SortByTime(Dedup(marks)), Key(m))
  {
    var d := Dedup(marks);
    DedupKeepsFirstOfEachKey(marks, 0);
    SortDistinct(d);
    SortIsStable(d, 0);
    SortKeepsMarks(d);
    var r := SortByTime(d);
    forall i | 0 <= i < |r| ensures r[i].session == "" { assert r[i] in r && r[i] in d && r[i] in marks; }
    DistinctTimes(r);
    forall m | m in marks ensures HasKey(r, Key(m)) { KeyKept(marks, d, r, m); }
  }

  lemma DistinctTimes(r: seq<Mark>)
    requires Sorted(r) && Distinct(r) && forall i :: 0 <= i < |r| ==> r[i].session == ""
    ensures Increasing(r)
  {
    forall i, j | 0 <= i < j < |r| ensures r[i].t < r[j].t { assert Key(r[i]) != Key(r[j]); }
  }

  lemma KeyKept(marks: seq<Mark>, d: seq<Mark>, r: seq<Mark>, m: Mark)
    requires m in marks && (forall x :: x in d ==> x in r)
    requires forall key :: HasKey(d, key) <==> HasKey(marks, key)
    ensures HasKey(r, Key(m))
  {
    var i :| 0 <= i < |marks| && marks[i] == m;
    assert HasKey(marks, Key(m));
    var k :| 0 <= k < |d| && Key(d[k]) == Key(m);
    assert d[k] in r;
  }

  // ---------------------------------------------------------------- intervals

  /** The start of the next operation, None standing for infinity. */
  function NextStart(starts: seq<Mark>, i: nat): Option<int>
    requires i < |starts|
  {
    if i + 1 < |starts| then Some(starts[i+1].t) else None
  }

  predicate Before(t: int, limit: Option<int>) { limit.Some? ==> t < limit.value }

  function FirstFinish(finishes: seq<Mark>, start: int, limit: Option<int>): Option<int> {
    if finishes == [] then None
    else if start <= finishes[0].t && Before(finishes[0].t, limit) then Some(finishes[0].t)
    else FirstFinish(finishes[1..], start, limit)
  }

  function IntervalOf(start: int, limit: Option<int>, finish: Option<int>, pre: int, post: int): Interval {
    var capped := start + post * 1000;
    var end := if finish.Some? then finish.value else if limit.Some? then Min(capped, limit.value) else capped;
    var kind := if finish.Some? then DrainFinished else if limit == Some(end) then NextRestart else PostCap;
    Interval(start, end, kind, start - pre * 1000, end + pre * 1000)
  }

  function IntervalAt(starts: seq<Mark>, finishes: seq<Mark>, pre: int, post: int, i: nat): Interval
    requires i < |starts|
  {
    var limit := NextStart(starts, i);
    IntervalOf(starts[i].t, limit, FirstFinish(finishes, starts[i].t, limit), pre, post)
  }

  predicate AreIntervals(r: seq<Interval>, starts: seq<Mark>, finishes: seq<Mark>, pre: int, post: int) {
    |r| == |starts| && forall i :: 0 <= i < |r| ==> r[i] == IntervalAt(starts, finishes, pre, post, i)
  }

  method BuildIntervals(starts: seq<Mark>, finishes: seq<Mark>, pre: int, post: int) returns (r: seq<Interval>)
    ensures AreIntervals(r, starts, finishes, pre, post)
  {
    r := [];
    for i := 0 to |starts|
      invariant |r| == i && forall k :: 0 <= k < i ==> r[k] == IntervalAt(starts, finishes, pre, post, k)
    {
      var start := starts[i].t;
      var limit := if i + 1 < |starts| then Some(starts[i+1].t) else None;
      var k := 0;
      while k < |finishes| && !(finishes[k].t >= start && Before(finishes[k].t, limit))
        invariant 0 <= k <= |finishes|
        invariant FirstFinish(finishes[k..], start, limit) == FirstFinish(finishes, start, limit)
      {
        k := k + 1;
      }
      var end, endKind;
      if k < |finishes| {
        end, endKind := finishes[k].t, DrainFinished;
      } else {
        var capped := start + post * 1000;
        end := if limit.Some? && limit.value < capped then limit.value else capped;
        endKind := if limit.Some? && end == limit.value then NextRestart else PostCap;
      }
      r := r + [Interval(start, end, endKind, start - pre * 1000, end + pre * 1000)];
    }
  }

  /** The finish found is the earliest one between this operation and the next. */
  lemma {:induction false} FirstFinishIsEarliest(finishes: seq<Mark>, start: int, limit: Option<int>)
    requires Sorted(finishes)
    ensures var f := FirstFinish(finishes, start, limit);
            if f.Some? then
              && start <= f.value && Before(f.value, limit)
              && (exists k :: 0 <= k < |finishes| && finishes[k].t == f.value)
              && forall k :: 0 <= k < |finishes| && start <= finishes[k].t ==> f.value <= finishes[k].t
            else forall k :: 0 <= k < |finishes| && start <= finishes[k].t ==> !Before(finishes[k].t, limit)
    decreases |finishes|
  {
    if finishes != [] {
      FirstFinishIsEarliest(finishes[1..], start, limit);
      var f := FirstFinish(finishes[1..], start, limit);
      if f.Some? {
        var k :| 0 <= k < |finishes[1..]| && finishes[1..][k].t == f.value;
        assert finishes[k+1].t == f.value;
      }
      forall k | 0 < k < |finishes| ensures finishes[k] == finishes[1..][k-1] {}
    }
  }

  /** Each core ends by the start of the next; it starts no later than it ends exactly when a finish
      closes it or `post` is not negative. */
  lemma CoresAreOrdered(starts: seq<Mark>, finishes: seq<Mark>, pre: int, post: int, i: nat, j: nat)
    requires Increasing(starts) && Sorted(finishes) && i < j < |starts|
    ensures var a, b := IntervalAt(starts, finishes, pre, post, i), IntervalAt(starts, finishes, pre, post, j);
            && a.start < b.start && a.end <= b.start
            && (a.start <= a.end <==> a.endKind.DrainFinished? || post >= 0)
            && (a.endKind.DrainFinished? ==> a.end < b.start)
  {
    FirstFinishIsEarliest(finishes, starts[i].t, NextStart(starts, i));
    assert starts[i+1].t <= starts[j].t;
  }

  /** A time in two cores is the shared endpoint of two neighbours. */
  lemma CoresMeetAtMostAtAnEndpoint(starts: seq<Mark>, finishes: seq<Mark>, pre: int, post: int, i: nat, j: nat, t: int)
    requires Increasing(starts) && Sorted(finishes) && i < j < |starts|
    requires IntervalAt(starts, finishes, pre, post, i).start <= t <= IntervalAt(starts, finishes, pre, post, i).end
    requires IntervalAt(starts, finishes, pre, post, j).start <= t <= IntervalAt(starts, finishes, pre, post, j).end
    ensures j == i + 1 && t == IntervalAt(starts, finishes, pre, post, i).end
    ensures t == IntervalAt(starts, finishes, pre, post, j).start
    ensures IntervalAt(starts, finishes, pre, post, i).endKind == NextRestart
  {
    CoresAreOrdered(starts, finishes, pre, post, i, i + 1);
  }

  lemma NextStartBounds(starts: seq<Mark>, i: nat, j: nat)
    requires Increasing(starts) && i < |starts| && j < |starts|
    ensures i < j ==> NextStart(starts, i).Some? && NextStart(starts, i).value <= starts[j].t
  {
  }

  /** A finish mark closes at most one operation: the last one that started at or before it. */
  lemma FinishClosesAtMostOne(starts: seq<Mark>, finishes: seq<Mark>, pre: int, post: int, i: nat, j: nat)
    requires Increasing(starts) && Sorted(finishes) && i < |starts| && j < |starts|
    requires IntervalAt(starts, finishes, pre, post, i).endKind.DrainFinished?
    requires IntervalAt(starts, finishes, pre, post, j).endKind.DrainFinished?
    requires IntervalAt(starts, finishes, pre, post, i).end == IntervalAt(starts, finishes, pre, post, j).end
    ensures i == j
  {
    FirstFinishIsEarliest(finishes, starts[i].t, NextStart(starts, i));
    FirstFinishIsEarliest(finishes, starts[j].t, NextStart(starts, j));
    NextStartBounds(starts, i, j);
    NextStartBounds(starts, j, i);
  }

  // ---------------------------------------------------------------- classes

  predicate Contains(iv: Interval, t: int) { iv.lo <= t <= iv.hi }

  predicate IsServerOp(r: seq<Interval>, t: int) { exists i :: 0 <= i < |r| && Contains(r[i], t) }

  predicate GuardNear(guards: seq<int>, start: int) {
    exists k :: 0 <= k < |guards| && Abs(guards[k] - start) <= 120_000
  }

  /** The first operation of least distance to `t`. */
  predicate IsNearest(r: seq<Interval>, t: int, n: Nearest) {
    && n.op < |r| && n.deltaMs == Abs(t - r[n.op].start)
    && (forall k :: 0 <= k < |r| ==> n.deltaMs <= Abs(t - r[k].start))
    && (forall k :: 0 <= k < n.op ==> n.deltaMs < Abs(t - r[k].start))
  }

  predicate IsClassified(r: seq<Interval>, guards: seq<int>, t: int, c: Classified) {
    && (c.hit.Some? <==> IsServerOp(r, t))
    && (c.hit.Some? ==>
          && c.hit.value < |r| && Contains(r[c.hit.value], t)
          && (forall k :: 0 <= k < c.hit.value ==> !Contains(r[k], t))
          && c.cause == Some(if GuardNear(guards, r[c.hit.value].start) then MemoryGuard else Manual))
    && (c.hit.None? ==> c.cause.None?)
    && (c.nearest.Some? <==> r != [])
    && (c.nearest.Some? ==> IsNearest(r, t, c.nearest.value))
  }

  method FindGuard(guards: seq<int>, start: int) returns (found: bool)
    ensures found == GuardNear(guards, start)
  {
    for k := 0 to |guards|
      invariant forall m :: 0 <= m < k ==> Abs(guards[m] - start) > 120_000
    {
      if Abs(guards[k] - start) <= 120_000 { return true; }
    }
    return false;
  }

  method ClassifyEvent(t: int, r: seq<Interval>, guards: seq<int>) returns (c: Classified)
    ensures IsClassified(r, guards, t, c)
  {
    var k := 0;
    while k < |r| && !Contains(r[k], t)
      invariant 0 <= k <= |r| && forall m :: 0 <= m < k ==> !Contains(r[m], t)
    {
      k := k + 1;
    }
    var nearest: Option<Nearest> := None;
    for i := 0 to |r|
      invariant nearest.Some? <==> i > 0
      invariant nearest.Some? ==> IsNearest(r[..i], t, nearest.value)
    {
      var d := Abs(t - r[i].start);
      if nearest.None? || d < nearest.value.deltaMs { nearest := Some(Nearest(i, d)); }
    }
    assert r[..|r|] == r;
    var cause := None;
    if k < |r| {
      var guard := FindGuard(guards, r[k].start);
      cause := Some(if guard then MemoryGuard else Manual);
    }
    c := Classified(if k < |r| then Some(k) else None, cause, nearest);
  }

  method Classify(loss: seq<Mark>, r: seq<Interval>, guards: seq<int>) returns (cs: seq<Classified>)
    ensures |cs| == |loss| && forall i :: 0 <= i < |loss| ==> IsClassified(r, guards, loss[i].t, cs[i])
  {
    cs := [];
    for i := 0 to |loss|
      invariant |cs| == i && forall k :: 0 <= k < i ==> IsClassified(r, guards, loss[k].t, cs[k])
    {
      var c := ClassifyEvent(loss[i].t, r, guards);
      cs := cs + [c];
    }
  }

  /** The events of one class, in order. */
  function OfClass(loss: seq<Mark>, cs: seq<Classified>, serverOp: bool): seq<Mark>
    requires |loss| == |cs|
  {
    if loss == [] then []
    else
      OfClass(loss[..|loss|-1], cs[..|loss|-1], serverOp)
      + (if cs[|loss|-1].hit.Some? == serverOp then [loss[|loss|-1]] else [])
  }

  function InSome(loss: seq<Mark>, r: seq<Interval>, inside: bool): seq<Mark> {
    if loss == [] then []
    else InSome(loss[..|loss|-1], r, inside)
         + (if IsServerOp(r, loss[|loss|-1].t) == inside then [loss[|loss|-1]] else [])
  }

  lemma {:induction false} ClassesAreByInterval(loss: seq<Mark>, r: seq<Interval>, guards: seq<int>,
                                                cs: seq<Classified>, serverOp: bool)
    requires |cs| == |loss| && forall i :: 0 <= i < |loss| ==> IsClassified(r, guards, loss[i].t, cs[i])
    ensures OfClass(loss, cs, serverOp) == InSome(loss, r, serverOp)
    decreases |loss|
  {
    if loss != [] {
      var n := |loss| - 1;
      assert cs[n].hit.Some? <==> IsServerOp(r, loss[n].t) by { assert IsClassified(r, guards, loss[n].t, cs[n]); }
      ClassesAreByInterval(loss[..n], r, guards, cs[..n], serverOp);
    }
  }

  lemma {:induction false} ClassesAddUp(loss: seq<Mark>, cs: seq<Classified>)
    requires |cs| == |loss|
    ensures multiset(OfClass(loss, cs, true)) + multiset(OfClass(loss, cs, false)) == multiset(loss)
    decreases |loss|
  {
    if loss != [] {
      ClassesAddUp(loss[..|loss|-1], cs[..|loss|-1]);
      assert loss == loss[..|loss|-1] + [loss[|loss|-1]];
    }
  }

  /** The two classes partition the events: the server-op events are those inside some interval, the
      organic ones those outside all, each in order, and together they are all events. */
  lemma ClassesPartition(loss: seq<Mark>, r: seq<Interval>, guards: seq<int>, cs: seq<Classified>)
    requires |cs| == |loss| && forall i :: 0 <= i < |loss| ==> IsClassified(r, guards, loss[i].t, cs[i])
    ensures OfClass(loss, cs, true) == InSome(loss, r, true) && OfClass(loss, cs, false) == InSome(loss, r, false)
    ensures multiset(OfClass(loss, cs, true)) + multiset(OfClass(loss, cs, false)) == multiset(loss)
  {
    ClassesAreByInterval(loss, r, guards, cs, true);
    ClassesAreByInterval(loss, r, guards, cs, false);
    ClassesAddUp(loss, cs);
  }

  /** The classification of an event is determined by its contract. */
  lemma ClassificationIsUnique(r: seq<Interval>, guards: seq<int>, t: int, a: Classified, b: Classified)
    requires IsClassified(r, guards, t, a) && IsClassified(r, guards, t, b)
    ensures a == b
  {
    if r != [] {
      var m, n := a.nearest.value, b.nearest.value;
      assert m.deltaMs <= n.deltaMs && n.deltaMs <= m.deltaMs;
    }
  }

  /** The mark falls to operation `i`: not before its start, and before the next one. */
  predicate FallsTo(starts: seq<Mark>, i: nat, t: int)
    requires i < |starts|
  {
    starts[i].t <= t && (i + 1 < |starts| ==> t < starts[i+1].t)
  }

  /** `t` is within `pre` seconds of operation `i`: from its start to the first finish that falls to it,
      or without one to `post` seconds later but no later than the next start. */
  predicate Near(starts: seq<Mark>, finishes: seq<Mark>, pre: int, post: int, i: nat, t: int)
    requires i < |starts|
  {
    && starts[i].t - 1000 * pre <= t
    && (forall k :: 0 <= k < |finishes| && FallsTo(starts, i, finishes[k].t) ==> t <= finishes[k].t + 1000 * pre)
    && ((forall k :: 0 <= k < |finishes| ==> !FallsTo(starts, i, finishes[k].t)) ==>
          && t <= starts[i].t + 1000 * post + 1000 * pre
          && (i + 1 < |starts| ==> t <= starts[i+1].t + 1000 * pre))
  }

  lemma NearIsContained(starts: seq<Mark>, finishes: seq<Mark>, pre: int, post: int, i: nat, t: int)
    requires Sorted(finishes) && i < |starts|
    ensures Contains(IntervalAt(starts, finishes, pre, post, i), t) <==> Near(starts, finishes, pre, post, i, t)
  {
    var limit := NextStart(starts, i);
    var f := FirstFinish(finishes, starts[i].t, limit);
    FirstFinishIsEarliest(finishes, starts[i].t, limit);
    if f.Some? {
      var k :| 0 <= k < |finishes| && finishes[k].t == f.value;
      assert FallsTo(starts, i, finishes[k].t);
    }
  }

  /** An event is server-op exactly when it is near some operation. */
  lemma ServerOpExactly(starts: seq<Mark>, finishes: seq<Mark>, pre: int, post: int, r: seq<Interval>, t: int)
    requires Sorted(finishes) && AreIntervals(r, starts, finishes, pre, post)
    ensures IsServerOp(r, t) <==> exists i :: 0 <= i < |starts| && Near(starts, finishes, pre, post, i, t)
  {
    forall i | 0 <= i < |starts| ensures Contains(r[i], t) <==> Near(starts, finishes, pre, post, i, t) {
      NearIsContained(starts, finishes, pre, post, i, t);
    }
  }

  /** Raising `pre` or `post` never turns a server-op event into an organic one. */
  lemma RaisingLimitsKeepsServerOps(starts: seq<Mark>, finishes: seq<Mark>, pre: int, post: int, pre': int, post': int,
                                    narrow: seq<Interval>, wide: seq<Interval>, t: int)
    requires pre <= pre' && post <= post' && IsServerOp(narrow, t)
    requires AreIntervals(narrow, starts, finishes, pre, post) && AreIntervals(wide, starts, finishes, pre', post')
    ensures IsServerOp(wide, t)
  {
    var i :| 0 <= i < |narrow| && Contains(narrow[i], t);
    assert Contains(wide[i], t);
  }
}
