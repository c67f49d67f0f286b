/** Whole runs over the replay registry: what every operation keeps, the bound on its size, and
    what a reconnecting client sees of the full log. */
module RegistryRuns {
  import opened Common
  import opened SessionRegistry

  // ---------------------------------------------------------------- operations

  datatype Op =
    | OpenOp(key: string)
    | RecordOp(key: string, payload: Payload)
    | RekeyOp(oldKey: string, newKey: string)
    | SetActiveOp(key: string, active: bool)
    | ClearOp(key: string)
    | DropOp(key: string)

  ghost function Apply(v: View, op: Op): View {
    match op
    case OpenOp(key) => Opened(v, key)
    case RecordOp(key, payload) => Recorded(v, key, payload)
    case RekeyOp(oldKey, newKey) => if Rekeyed(v, oldKey, newKey).Some? then Rekeyed(v, oldKey, newKey).value else v
    case SetActiveOp(key, active) => ActiveSet(v, key, active)
    case ClearOp(key) => BufferCleared(v, key)
    case DropOp(key) => Dropped(v, key)
  }

  ghost predicate IsRun(vs: seq<View>, ops: seq<Op>) {
    && |vs| == |ops| + 1 && vs[0].entries == map[] && ViewOk(vs[0])
    && forall i :: 0 <= i < |ops| ==> vs[i+1] == Apply(vs[i], ops[i])
  }

  lemma CreatedOk(v: View, key: string)
    requires ViewOk(v)
    ensures ViewOk(Created(v, key))
  {
  }

  lemma OpenedOk(v: View, key: string)
    requires ViewOk(v)
    ensures ViewOk(Opened(v, key))
  {
    if key !in v.entries { CreatedOk(v, key); }
  }

  lemma RecordedOk(v: View, key: string, payload: Payload)
    requires ViewOk(v)
    ensures ViewOk(Recorded(v, key, payload))
  {
    CreatedOk(v, key);
    var w := if key in v.entries then Touched(v, key) else Created(v, key);
    assert ViewOk(w);
    var x := Appended(w, key, payload);
    assert forall k :: k in x.entries ==> k in w.entries && x.entries[k].touch == w.entries[k].touch;
  }

  lemma RekeyedOk(v: View, oldKey: string, newKey: string)
    requires ViewOk(v) && Rekeyed(v, oldKey, newKey).Some?
    ensures ViewOk(Rekeyed(v, oldKey, newKey).value)
  {
    if oldKey !in v.entries { OpenedOk(v, newKey); }
  }

  /** Every operation keeps the touches pairwise distinct and every ring well-formed. */
  lemma ApplyOk(v: View, op: Op)
    requires ViewOk(v)
    ensures ViewOk(Apply(v, op)) && Apply(v, op).maxEntries == v.maxEntries
  {
    match op
    case OpenOp(key) => OpenedOk(v, key);
    case RecordOp(key, payload) => RecordedOk(v, key, payload);
    case RekeyOp(oldKey, newKey) => if Rekeyed(v, oldKey, newKey).Some? { RekeyedOk(v, oldKey, newKey); }
    case _ =>
  }

  lemma {:induction false} RunOk(vs: seq<View>, ops: seq<Op>, i: nat)
    requires IsRun(vs, ops) && i < |vs|
    ensures ViewOk(vs[i]) && vs[i].maxEntries == vs[0].maxEntries
    decreases i
  {
    if i > 0 {
      RunOk(vs, ops, i - 1);
      ApplyOk(vs[i-1], ops[i-1]);
    }
  }

  // ---------------------------------------------------------------- eviction and the size bound

  lemma {:induction false} VictimExists(entries: map<string, Entry>, among: set<string>) returns (k: string)
    requires among != {} && forall l :: l in among ==> l in entries && !entries[l].active
    ensures k in among && forall l :: l in among ==> entries[k].touch <= entries[l].touch
    decreases |among|
  {
    k :| k in among;
    var rest := among - {k};
    if rest != {} {
      var m := VictimExists(entries, rest);
      if entries[m].touch < entries[k].touch { k := m; }
    }
  }

  /** An insertion at the cap removes exactly the least recently touched inactive entry, whatever
      order the map is scanned in, and nothing when every entry is live: never a live one. */
  lemma CapRemovesOnlyTheVictim(v: View)
    requires ViewOk(v)
    ensures AllActive(v.entries) || |v.entries| < v.maxEntries ==> Capped(v) == v
    ensures !AllActive(v.entries) && |v.entries| >= v.maxEntries ==>
              exists k :: IsVictim(v.entries, k) && Capped(v) == Dropped(v, k)
                          && forall l :: IsVictim(v.entries, l) ==> l == k
  {
    if !AllActive(v.entries) {
      var idle := set k | k in v.entries && !v.entries[k].active;
      var l :| l in v.entries && !v.entries[l].active;
      assert l in idle;
      var k := VictimExists(v.entries, idle);
      assert forall m :: m in v.entries && !v.entries[m].active ==> m in idle;
      assert IsVictim(v.entries, k);
      forall m | IsVictim(v.entries, m) ensures m == k { VictimUnique(v, m, k); }
    }
  }

  function ActiveKeys(v: View): set<string> { set k | k in v.entries && v.entries[k].active }

  lemma CreatedSize(v: View, key: string)
    requires ViewOk(v) && key !in v.entries
    ensures var w := Created(v, key);
            || |w.entries| <= v.maxEntries || |w.entries| <= |v.entries| || ActiveKeys(w) == w.entries.Keys
  {
    CapRemovesOnlyTheVictim(v);
    var c, w := Capped(v), Created(v, key);
    InsertSize(c.entries, key, NewEntry(v));
    if c != v {
      var k :| IsVictim(v.entries, k) && c == Dropped(v, k);
      RemoveSize(v.entries, k);
    } else if |v.entries| >= v.maxEntries {
      assert AllActive(v.entries);
      assert ActiveKeys(w) == w.entries.Keys;
    }
  }

  lemma InsertSize(m: map<string, Entry>, key: string, e: Entry)
    requires key !in m
    ensures |m[key := e]| == |m| + 1
  {
    assert m[key := e].Keys == m.Keys + {key};
    assert |m[key := e]| == |m[key := e].Keys| && |m| == |m.Keys|;
  }

  lemma RemoveSize(m: map<string, Entry>, key: string)
    requires key in m
    ensures |m - {key}| == |m| - 1
  {
    assert (m - {key}).Keys == m.Keys - {key};
    assert |m - {key}| == |(m - {key}).Keys| && |m| == |m.Keys|;
  }

  /** The size after one operation: within the cap, or no larger than before, or every entry live. */
  predicate SizeFollows(v: View, w: View) {
    |w.entries| <= v.maxEntries || |w.entries| <= |v.entries| || ActiveKeys(w) == w.entries.Keys
  }

  lemma SameKeysSameSize(v: View, w: View)
    requires w.entries.Keys <= v.entries.Keys
    ensures |w.entries| <= |v.entries|
  {
    assert |w.entries| == |w.entries.Keys| && |v.entries| == |v.entries.Keys|;
    assert v.entries.Keys == w.entries.Keys + (v.entries.Keys - w.entries.Keys);
  }

  lemma OpenedSize(v: View, key: string)
    requires ViewOk(v)
    ensures SizeFollows(v, Opened(v, key))
  {
    if key in v.entries { SameKeysSameSize(v, Opened(v, key)); } else { CreatedSize(v, key); }
  }

  lemma AppendedSize(v: View, key: string, payload: Payload)
    requires key in v.entries
    ensures |Appended(v, key, payload).entries| == |v.entries| && ActiveKeys(Appended(v, key, payload)) == ActiveKeys(v)
  {
    SameKeysSameSize(v, Appended(v, key, payload));
  }

  lemma RecordedSize(v: View, key: string, payload: Payload)
    requires ViewOk(v)
    ensures SizeFollows(v, Recorded(v, key, payload))
  {
    var w := Recorded(v, key, payload);
    if key in v.entries {
      SameKeysSameSize(v, w);
    } else {
      CreatedSize(v, key);
      AppendedSize(Created(v, key), key, payload);
    }
  }

  lemma RekeyedSize(v: View, oldKey: string, newKey: string)
    requires ViewOk(v) && Rekeyed(v, oldKey, newKey).Some?
    ensures SizeFollows(v, Rekeyed(v, oldKey, newKey).value)
  {
    var w := Rekeyed(v, oldKey, newKey).value;
    if oldKey in v.entries && newKey !in v.entries {
      assert w.entries.Keys == v.entries.Keys + {newKey} - {oldKey};
      assert |w.entries| == |w.entries.Keys| == |v.entries.Keys| == |v.entries|;
    } else if oldKey !in v.entries {
      OpenedSize(v, newKey);
    }
  }

  lemma ApplySize(v: View, op: Op)
    requires ViewOk(v)
    ensures SizeFollows(v, Apply(v, op))
  {
    match op
    case OpenOp(key) => OpenedSize(v, key);
    case RecordOp(key, payload) => RecordedSize(v, key, payload);
    case RekeyOp(oldKey, newKey) => if Rekeyed(v, oldKey, newKey).Some? { RekeyedSize(v, oldKey, newKey); }
    case SetActiveOp(key, active) => SameKeysSameSize(v, ActiveSet(v, key, active));
    case ClearOp(key) => SameKeysSameSize(v, BufferCleared(v, key));
    case DropOp(key) => SameKeysSameSize(v, Dropped(v, key));
  }

  /** In every reachable state the registry holds at most `maxEntries` entries, or no more than
      were live at once at some moment so far. */
  lemma {:induction false} SizeBound(vs: seq<View>, ops: seq<Op>, n: nat)
    requires IsRun(vs, ops) && n < |vs|
    ensures |vs[n].entries| <= vs[0].maxEntries || exists i :: 0 <= i <= n && |vs[n].entries| <= |ActiveKeys(vs[i])|
    decreases n
  {
    if n > 0 {
      RunOk(vs, ops, n - 1);
      SizeBound(vs, ops, n - 1);
      ApplySize(vs[n-1], ops[n-1]);
      if ActiveKeys(vs[n]) == vs[n].entries.Keys {
        assert |vs[n].entries| == |vs[n].entries.Keys|;
      }
    }
  }

  // ---------------------------------------------------------------- what recency means

  /** The operation opens or records into the entry it leaves under `key`; rekeying what is not there
      opens the new key. */
  predicate Touches(v: View, op: Op, key: string) {
    match op
    case OpenOp(k) => k == key
    case RecordOp(k, _) => k == key
    case RekeyOp(oldKey, newKey) =>
      newKey == key && oldKey != newKey && oldKey !in v.entries && newKey !in v.entries
    case _ => false
  }

  /** The key under which the entry now stored under `key` was stored before. */
  function Before(v: View, op: Op, key: string): string {
    if op.RekeyOp? && op.newKey == key && op.oldKey != key && op.oldKey in v.entries && key !in v.entries
    then op.oldKey else key
  }

  /** The latest open of, or record into, the entry stored under `key`, wherever it was stored then. */
  function LatestUse(vs: seq<View>, ops: seq<Op>, n: nat, key: string): (r: Option<nat>)
    requires n <= |ops| && |vs| == |ops| + 1
    ensures r.Some? ==> r.value < n
    decreases n
  {
    if n == 0 then None
    else if Touches(vs[n-1], ops[n-1], key) then Some(n - 1)
    else LatestUse(vs, ops, n - 1, Before(vs[n-1], ops[n-1], key))
  }

  /** The entry under `key` in `w` was touched just now. */
  predicate JustTouched(v: View, w: View, key: string)
    requires key in w.entries
  {
    w.entries[key].touch == w.tick == v.tick + 1
  }

  /** The entry under `key` in `w` was under `was` in `v` and was not touched since. */
  predicate Untouched(v: View, w: View, key: string, was: string)
    requires key in w.entries
  {
    was in v.entries && w.entries[key].touch == v.entries[was].touch
  }

  lemma CreatedTouch(v: View, key: string, k: string)
    requires ViewOk(v) && key !in v.entries && k in Created(v, key).entries
    ensures if k == key then JustTouched(v, Created(v, key), k) else Untouched(v, Created(v, key), k, k)
  {
    assert Capped(v).entries.Keys <= v.entries.Keys;
  }

  lemma OpenedTouch(v: View, key: string, k: string)
    requires ViewOk(v) && k in Opened(v, key).entries
    ensures if k == key then JustTouched(v, Opened(v, key), k) else Untouched(v, Opened(v, key), k, k)
  {
    if key !in v.entries { CreatedTouch(v, key, k); }
  }

  lemma RecordedTouch(v: View, key: string, payload: Payload, k: string)
    requires ViewOk(v) && k in Recorded(v, key, payload).entries
    ensures if k == key then JustTouched(v, Recorded(v, key, payload), k)
            else Untouched(v, Recorded(v, key, payload), k, k)
  {
    var w := if key in v.entries then Touched(v, key) else Created(v, key);
    var x := Appended(w, key, payload);
    assert x.tick == w.tick && k in w.entries && x.entries[k].touch == w.entries[k].touch;
    if key !in v.entries { CreatedTouch(v, key, k); }
  }

  lemma TouchStep(v: View, op: Op, key: string)
    requires ViewOk(v) && key in Apply(v, op).entries
    ensures if Touches(v, op, key) then JustTouched(v, Apply(v, op), key)
            else Untouched(v, Apply(v, op), key, Before(v, op, key))
  {
    match op
    case OpenOp(k) => OpenedTouch(v, k, key);
    case RecordOp(k, payload) => RecordedTouch(v, k, payload, key);
    case RekeyOp(oldKey, newKey) =>
      if oldKey != newKey && oldKey !in v.entries && newKey !in v.entries { OpenedTouch(v, newKey, key); }
    case _ =>
  }

  lemma TickStep(v: View, op: Op)
    ensures v.tick <= Apply(v, op).tick
  {
  }

  lemma RunStep(vs: seq<View>, ops: seq<Op>, n: nat)
    requires IsRun(vs, ops) && 0 < n < |vs|
    ensures vs[n] == Apply(vs[n-1], ops[n-1]) && ViewOk(vs[n-1]) && vs[n-1].tick <= vs[n].tick
  {
    RunOk(vs, ops, n - 1);
    assert vs[n] == vs[(n - 1) + 1];
    TickStep(vs[n-1], ops[n-1]);
  }

  predicate TicksOrdered(vs: seq<View>) { forall n :: 0 < n < |vs| ==> vs[n-1].tick <= vs[n].tick }

  lemma {:induction false} TicksGrow(vs: seq<View>, i: nat, j: nat)
    requires TicksOrdered(vs) && i <= j < |vs|
    ensures vs[i].tick <= vs[j].tick
    decreases j
  {
    if i < j { TicksGrow(vs, i, j - 1); }
  }

  /** A touch given by operation `use`. */
  predicate GivenBy(vs: seq<View>, use: nat, touch: nat) {
    use + 1 < |vs| && touch == vs[use+1].tick == vs[use].tick + 1
  }

  lemma {:induction false} TouchIsLatestUse(vs: seq<View>, ops: seq<Op>, n: nat, key: string)
    requires IsRun(vs, ops) && n < |vs| && key in vs[n].entries
    ensures LatestUse(vs, ops, n, key).Some?
    ensures GivenBy(vs, LatestUse(vs, ops, n, key).value, vs[n].entries[key].touch)
    decreases n
  {
    RunStep(vs, ops, n);
    var m: nat := n - 1;
    var v, op := vs[m], ops[m];
    TouchStep(v, op, key);
    if !Touches(v, op, key) { TouchIsLatestUse(vs, ops, m, Before(v, op, key)); }
  }

  lemma UsesOrderTouches(vs: seq<View>, i: nat, j: nat, touch: nat, other: nat)
    requires TicksOrdered(vs) && GivenBy(vs, i, touch) && GivenBy(vs, j, other)
    ensures touch < other <==> i < j
  {
    if i < j { TicksGrow(vs, i + 1, j); }
    if j < i { TicksGrow(vs, j + 1, i); }
  }

  /** Touches order the entries by their latest open or record. */
  lemma {:induction false} TouchOrdersByUse(vs: seq<View>, ops: seq<Op>, n: nat, k: string, l: string)
    requires IsRun(vs, ops) && n < |vs| && k in vs[n].entries && l in vs[n].entries
    ensures LatestUse(vs, ops, n, k).Some? && LatestUse(vs, ops, n, l).Some?
    ensures vs[n].entries[k].touch < vs[n].entries[l].touch
         <==> LatestUse(vs, ops, n, k).value < LatestUse(vs, ops, n, l).value
  {
    TouchIsLatestUse(vs, ops, n, k);
    TouchIsLatestUse(vs, ops, n, l);
    forall m | 0 < m < |vs| ensures vs[m-1].tick <= vs[m].tick { RunStep(vs, ops, m); }
    UsesOrderTouches(vs, LatestUse(vs, ops, n, k).value, LatestUse(vs, ops, n, l).value,
                     vs[n].entries[k].touch, vs[n].entries[l].touch);
  }

  /** The entry under `k` was last used before the one under `l`. */
  predicate UsedBefore(vs: seq<View>, ops: seq<Op>, n: nat, k: string, l: string)
    requires n <= |ops| && |vs| == |ops| + 1
  {
    var i, j := LatestUse(vs, ops, n, k), LatestUse(vs, ops, n, l);
    i.Some? && j.Some? && i.value < j.value
  }

  lemma UsedBeforeIsTouchedBefore(vs: seq<View>, ops: seq<Op>, n: nat, k: string, l: string)
    requires IsRun(vs, ops) && n < |vs| && k in vs[n].entries && l in vs[n].entries
    ensures UsedBefore(vs, ops, n, k, l) <==> vs[n].entries[k].touch < vs[n].entries[l].touch
  {
    TouchOrdersByUse(vs, ops, n, k, l);
  }

  lemma VictimIsBefore(v: View, k: string)
    requires ViewOk(v) && k in v.entries
    ensures IsVictim(v.entries, k) <==>
              && !v.entries[k].active
              && forall l :: l in v.entries && l != k && !v.entries[l].active ==>
                   v.entries[k].touch < v.entries[l].touch
  {
  }

  /** In every reachable state the entry an insertion at the cap removes is the inactive one whose latest
      open or record lies furthest back. */
  lemma VictimIsLeastRecentlyUsed(vs: seq<View>, ops: seq<Op>, n: nat, k: string)
    requires IsRun(vs, ops) && n < |vs| && k in vs[n].entries
    ensures IsVictim(vs[n].entries, k) <==>
              && !vs[n].entries[k].active
              && forall l :: l in vs[n].entries && l != k && !vs[n].entries[l].active ==> UsedBefore(vs, ops, n, k, l)
  {
    RunOk(vs, ops, n);
    VictimIsBefore(vs[n], k);
    forall l | l in vs[n].entries
      ensures UsedBefore(vs, ops, n, k, l) <==> vs[n].entries[k].touch < vs[n].entries[l].touch
    {
      UsedBeforeIsTouchedBefore(vs, ops, n, k, l);
    }
  }

  /** The operation says whether the entry it leaves under `key` is live: an open, a record that creates
      it, a rekey of what is not there, and a change of the flag. */
  function SaysActive(v: View, op: Op, key: string): Option<bool> {
    if op.SetActiveOp? && op.key == key then Some(op.active)
    else if op.RecordOp? && op.key == key && key in v.entries then None
    else if Touches(v, op, key) then Some(true)
    else None
  }

  /** What was said last of the entry stored under `key`, wherever it was stored then. */
  function LatestSaid(vs: seq<View>, ops: seq<Op>, n: nat, key: string): bool
    requires n <= |ops| && |vs| == |ops| + 1
    decreases n
  {
    if n == 0 then false
    else
      var said := SaysActive(vs[n-1], ops[n-1], key);
      if said.Some? then said.value else LatestSaid(vs, ops, n - 1, Before(vs[n-1], ops[n-1], key))
  }

  predicate ActiveFollows(v: View, w: View, op: Op, key: string)
    requires key in w.entries
  {
    var said, was := SaysActive(v, op, key), Before(v, op, key);
    if said.Some? then w.entries[key].active == said.value
    else was in v.entries && w.entries[key].active == v.entries[was].active
  }

  lemma CreatedActive(v: View, key: string, k: string)
    requires ViewOk(v) && key !in v.entries && k in Created(v, key).entries
    ensures if k == key then Created(v, key).entries[k].active
            else k in v.entries && Created(v, key).entries[k].active == v.entries[k].active
  {
    assert Capped(v).entries.Keys <= v.entries.Keys;
  }

  lemma OpenedActive(v: View, key: string, k: string)
    requires ViewOk(v) && k in Opened(v, key).entries
    ensures if k == key then Opened(v, key).entries[k].active
            else k in v.entries && Opened(v, key).entries[k].active == v.entries[k].active
  {
    if key !in v.entries { CreatedActive(v, key, k); }
  }

  lemma RecordedActive(v: View, key: string, payload: Payload, k: string)
    requires ViewOk(v) && k in Recorded(v, key, payload).entries
    ensures if k == key && key !in v.entries then Recorded(v, key, payload).entries[k].active
            else k in v.entries && Recorded(v, key, payload).entries[k].active == v.entries[k].active
  {
    var w := if key in v.entries then Touched(v, key) else Created(v, key);
    assert k in w.entries && Appended(w, key, payload).entries[k].active == w.entries[k].active;
    if key !in v.entries { CreatedActive(v, key, k); }
  }

  lemma ActiveStep(v: View, op: Op, key: string)
    requires ViewOk(v) && key in Apply(v, op).entries
    ensures ActiveFollows(v, Apply(v, op), op, key)
  {
    match op
    case OpenOp(k) => OpenedActive(v, k, key);
    case RecordOp(k, payload) => RecordedActive(v, k, payload, key);
    case RekeyOp(oldKey, newKey) =>
      if oldKey != newKey && oldKey !in v.entries && newKey !in v.entries { OpenedActive(v, newKey, key); }
    case _ =>
  }

  /** An entry is live exactly when that was the last thing said of it, under whatever key. */
  lemma {:induction false} ActiveIsLatestSaid(vs: seq<View>, ops: seq<Op>, n: nat, key: string)
    requires IsRun(vs, ops) && n < |vs| && key in vs[n].entries
    ensures vs[n].entries[key].active == LatestSaid(vs, ops, n, key)
    decreases n
  {
    RunStep(vs, ops, n);
    var m: nat := n - 1;
    var v, op := vs[m], ops[m];
    ActiveStep(v, op, key);
    if SaysActive(v, op, key).None? { ActiveIsLatestSaid(vs, ops, m, Before(v, op, key)); }
  }

  // ---------------------------------------------------------------- rekeying

  ghost function RecordAll(v: View, key: string, ps: seq<Payload>): View {
    if ps == [] then v else Recorded(RecordAll(v, key, ps[..|ps|-1]), key, ps[|ps|-1])
  }

  function Renamed(v: View, oldKey: string, newKey: string): View
    requires oldKey in v.entries
  {
    v.(entries := v.entries[newKey := v.entries[oldKey]] - {oldKey})
  }

  lemma MapRenames(m: map<string, Entry>, oldKey: string, newKey: string, e: Entry)
    requires oldKey != newKey && newKey !in m
    ensures m[oldKey := e][newKey := e] - {oldKey} == (m - {oldKey})[newKey := e]
  {
  }

  lemma RecordedRenames(x: View, oldKey: string, newKey: string, payload: Payload)
    requires oldKey != newKey && oldKey in x.entries && newKey !in x.entries
    ensures Recorded(Renamed(x, oldKey, newKey), newKey, payload)
          == Renamed(Recorded(x, oldKey, payload), oldKey, newKey)
  {
    var y, rest := Renamed(x, oldKey, newKey), x.entries - {oldKey};
    var e := x.entries[oldKey];
    var f := e.(touch := x.tick + 1, ring := e.ring.(log := e.ring.log + [payload]));
    assert y.entries == rest[newKey := e];
    assert Recorded(y, newKey, payload).entries == rest[newKey := f];
    assert Recorded(x, oldKey, payload).entries == x.entries[oldKey := f];
    MapRenames(x.entries, oldKey, newKey, f);
  }

  lemma {:induction false} RecordAllRenames(a: View, oldKey: string, newKey: string, ps: seq<Payload>)
    requires oldKey != newKey && oldKey in a.entries && newKey !in a.entries
    ensures var x := RecordAll(a, oldKey, ps);
            && oldKey in x.entries && newKey !in x.entries
            && RecordAll(Renamed(a, oldKey, newKey), newKey, ps) == Renamed(x, oldKey, newKey)
    decreases |ps|
  {
    if ps != [] {
      RecordAllRenames(a, oldKey, newKey, ps[..|ps|-1]);
      RecordedRenames(RecordAll(a, oldKey, ps[..|ps|-1]), oldKey, newKey, ps[|ps|-1]);
    }
  }

  lemma {:induction false} RecordAllConcat(v: View, key: string, ps: seq<Payload>, qs: seq<Payload>)
    ensures RecordAll(v, key, ps + qs) == RecordAll(RecordAll(v, key, ps), key, qs)
    decreases |qs|
  {
    if qs == [] {
      assert ps + qs == ps;
    } else {
      assert (ps + qs)[..|ps + qs|-1] == ps + qs[..|qs|-1];
      RecordAllConcat(v, key, ps, qs[..|qs|-1]);
    }
  }

  lemma OpenedRenames(v: View, oldKey: string, newKey: string)
    requires ViewOk(v) && oldKey != newKey && oldKey !in v.entries && newKey !in v.entries
    ensures oldKey in Opened(v, oldKey).entries && newKey !in Opened(v, oldKey).entries
    ensures Opened(v, newKey) == Renamed(Opened(v, oldKey), oldKey, newKey)
  {
    var c := Capped(v).entries;
    assert c.Keys <= v.entries.Keys && c - {oldKey} == c;
    MapRenames(c, oldKey, newKey, NewEntry(v));
  }

  /** Opening and recording under a temporary key, then `rekey`, then recording under the final
      key leaves the whole registry as if the final key had been used throughout: nothing buffered
      is lost, duplicated or renumbered. */
  lemma {:induction false} RekeyLosesNothing(v: View, temporary: string, final: string, ps: seq<Payload>,
                                             qs: seq<Payload>)
    requires ViewOk(v) && temporary != final && temporary !in v.entries && final !in v.entries
    ensures var before := RecordAll(Opened(v, temporary), temporary, ps);
            && Rekeyed(before, temporary, final).Some?
            && RecordAll(Rekeyed(before, temporary, final).value, final, qs)
               == RecordAll(Opened(v, final), final, ps + qs)
  {
    OpenedRenames(v, temporary, final);
    RecordAllRenames(Opened(v, temporary), temporary, final, ps);
    RecordAllConcat(Opened(v, final), final, ps, qs);
  }

  /** A fresh entry's ring holds exactly what was recorded, in order. */
  lemma {:induction false} RecordAllLogs(v: View, key: string, ps: seq<Payload>)
    requires key in v.entries
    ensures var w := RecordAll(v, key, ps);
            key in w.entries && w.entries[key].ring == v.entries[key].ring.(log := v.entries[key].ring.log + ps)
    decreases |ps|
  {
    if ps == [] {
      assert v.entries[key].ring.log + ps == v.entries[key].ring.log;
    } else {
      RecordAllLogs(v, key, ps[..|ps|-1]);
      assert v.entries[key].ring.log + ps == v.entries[key].ring.log + ps[..|ps|-1] + [ps[|ps|-1]];
    }
  }

  // ---------------------------------------------------------------- a reconnecting client

  datatype ClientOp = PushOp(payload: Payload) | ForgetOp | AttachOp

  /** One entry's ring and a client that passes back what `attach` returned it. */
  datatype Client = Client(ring: Ring, last: Option<int>, received: seq<Item>)

  function ClientStep(c: Client, op: ClientOp): Client
    requires RingOk(c.ring)
  {
    match op
    case PushOp(payload) => c.(ring := c.ring.(log := c.ring.log + [payload]))
    case ForgetOp => c.(ring := c.ring.(cleared := |c.ring.log|))
    case AttachOp =>
      var (items, highest) := Attached(c.ring, c.last);
      c.(last := Some(highest), received := c.received + items)
  }

  ghost predicate IsClientRun(cs: seq<Client>, ops: seq<ClientOp>) {
    && |cs| == |ops| + 1 && RingOk(cs[0].ring) && cs[0] == Client(Ring(cs[0].ring.capacity, [], 0), None, [])
    && forall i :: 0 <= i < |ops| ==> RingOk(cs[i].ring) && cs[i+1] == ClientStep(cs[i], ops[i])
  }

  predicate Received(c: Client, s: nat) { exists i :: 0 <= i < |c.received| && c.received[i].seqNo == s }

  /** Strictly increasing seqs up to `top`, each with the payload recorded under it. */
  predicate InOrder(items: seq<Item>, log: seq<Payload>, top: int) {
    && top <= |log|
    && (forall i :: 0 <= i < |items| ==> 1 <= items[i].seqNo <= top && items[i].payload == log[items[i].seqNo - 1])
    && (forall i, j :: 0 <= i < j < |items| ==> items[i].seqNo < items[j].seqNo)
  }

  lemma InOrderContinued(items: seq<Item>, log: seq<Payload>, top: int, from: nat)
    requires InOrder(items, log, top) && top <= from <= |log|
    ensures InOrder(items + After(log, from), log, |log|)
  {
  }

  ghost predicate ClientInv(c: Client) {
    && RingOk(c.ring)
    && (c.last.None? ==> c.received == [])
    && (c.last.Some? ==> 0 <= c.last.value <= |c.ring.log|)
    && (c.last.Some? ==> InOrder(c.received, c.ring.log, c.last.value))
    && (c.last.Some? ==> forall s :: Floor(c.ring) < s <= c.last.value ==> Received(c, s))
  }

  lemma AttachedSuffix(r: Ring, last: Option<int>)
    requires RingOk(r) && (last.Some? ==> 0 <= last.value <= |r.log|)
    ensures var (items, highest) := Attached(r, last);
            var from := if last.Some? then Max(Floor(r), last.value) else Floor(r);
            && items == After(r.log, from)
            && highest == if items == [] then (if last.Some? then last.value else 0) else |r.log|
  {
  }

  lemma AttachDelivers(c: Client)
    requires ClientInv(c)
    ensures forall s :: Floor(c.ring) < s <= |c.ring.log| ==> Received(ClientStep(c, AttachOp), s)
  {
    AttachedSuffix(c.ring, c.last);
    var d := ClientStep(c, AttachOp);
    var from := if c.last.Some? then Max(Floor(c.ring), c.last.value) else Floor(c.ring);
    assert d.received == c.received + After(c.ring.log, from);
    forall s | Floor(c.ring) < s <= |c.ring.log| ensures Received(d, s) {
      if s > from {
        assert d.received[|c.received| + s - from - 1].seqNo == s;
      } else {
        assert Received(c, s);
        var i :| 0 <= i < |c.received| && c.received[i].seqNo == s;
        assert d.received[i].seqNo == s;
      }
    }
  }

  lemma AttachKeepsInv(c: Client)
    requires ClientInv(c)
    ensures ClientInv(ClientStep(c, AttachOp))
  {
    AttachedSuffix(c.ring, c.last);
    AttachDelivers(c);
    var d := ClientStep(c, AttachOp);
    var from := if c.last.Some? then Max(Floor(c.ring), c.last.value) else Floor(c.ring);
    var items := After(c.ring.log, from);
    assert d.received == c.received + items;
    InOrderContinued(c.received, c.ring.log, if c.last.Some? then c.last.value else 0, from);
  }

  lemma ClientInvStep(c: Client, op: ClientOp)
    requires ClientInv(c)
    ensures ClientInv(ClientStep(c, op))
  {
    if op.AttachOp? {
      AttachKeepsInv(c);
    } else {
      var d := ClientStep(c, op);
      forall s | Floor(d.ring) < s <= |c.ring.log| && Received(c, s) ensures Received(d, s) {}
    }
  }

  lemma {:induction false} ClientInvAlong(cs: seq<Client>, ops: seq<ClientOp>, i: nat)
    requires IsClientRun(cs, ops) && i < |cs|
    ensures ClientInv(cs[i])
    decreases i
  {
    if i > 0 {
      ClientInvAlong(cs, ops, i - 1);
      ClientInvStep(cs[i-1], ops[i-1]);
    }
  }

  /** Whatever is recorded, cleared and replayed meanwhile: a client that passes back what `attach`
      returned receives strictly increasing seqs, so never a duplicate, each with the payload
      recorded under it; and right after an attach it has every payload still retained, so it
      misses one only if it left the window or was cleared. */
  lemma ReplayAgreesWithLog(cs: seq<Client>, ops: seq<ClientOp>, n: nat)
    requires IsClientRun(cs, ops) && n < |cs|
    ensures forall i, j :: 0 <= i < j < |cs[n].received| ==> cs[n].received[i].seqNo < cs[n].received[j].seqNo
    ensures forall i :: 0 <= i < |cs[n].received| ==>
              && 1 <= cs[n].received[i].seqNo <= |cs[n].ring.log|
              && cs[n].received[i].payload == cs[n].ring.log[cs[n].received[i].seqNo - 1]
    ensures RingOk(cs[n].ring)
    ensures n > 0 && ops[n-1].AttachOp? ==>
              forall s :: Floor(cs[n].ring) < s <= |cs[n].ring.log| ==> Received(cs[n], s)
  {
    ClientInvAlong(cs, ops, n);
    if n > 0 {
      ClientInvAlong(cs, ops, n - 1);
      if ops[n-1].AttachOp? { AttachDelivers(cs[n-1]); }
    }
  }

  /** A floor above the counter, and likewise one of 0 or less, replays the whole ring; what is returned
      then is the latest seq, or if nothing is retained 0 for a foreign floor and the client's own else. */
  lemma ForeignFloorReplaysAll(r: Ring, lastSeq: int)
    requires RingOk(r) && (lastSeq > |r.log| || lastSeq <= 0)
    ensures Attached(r, Some(lastSeq)).0 == After(r.log, Floor(r)) == Attached(r, None).0
    ensures Attached(r, Some(lastSeq)).1
         == if Floor(r) < |r.log| then |r.log| else if lastSeq <= 0 then lastSeq else 0
    ensures Attached(r, None).1 == if Floor(r) < |r.log| then |r.log| else 0
  {
  }

  /** A floor of this entry replays what is retained above it, and the latest seq is returned: the
      client's own again if it is up to date or nothing is retained. */
  lemma OwnFloorReplaysTheRest(r: Ring, lastSeq: int)
    requires RingOk(r) && 0 < lastSeq <= |r.log|
    ensures Attached(r, Some(lastSeq)).0 == After(r.log, Max(Floor(r), lastSeq))
    ensures Attached(r, Some(lastSeq)).1 == if Floor(r) < |r.log| then |r.log| else lastSeq
  {
  }
}
