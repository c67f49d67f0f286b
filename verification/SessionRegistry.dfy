/** Models server/session-registry.js: the bounded replay ring, the entries and the registry. The
    abstract state of a ring is the plain log of everything recorded and how much of it was
    cleared; the retained items are a window of that log. */
module SessionRegistry {
  import opened Common

  datatype Payload = Payload(text: string)

  datatype Item = Item(seqNo: nat, payload: Payload)

  /** A ring seen as its full log; `cleared` counts the payloads forgotten by `clear`. */
  datatype Ring = Ring(capacity: nat, log: seq<Payload>, cleared: nat)

  predicate RingOk(r: Ring) { 1 <= r.capacity && r.cleared <= |r.log| }

  /** The highest seq no longer retained. */
  function Floor(r: Ring): (f: nat)
    requires RingOk(r)
    ensures f <= |r.log|
  {
    Max(r.cleared, |r.log| - r.capacity)
  }

  /** The log's payloads after the first `n`, each with its seq. */
  function After(log: seq<Payload>, n: nat): (items: seq<Item>)
    requires n <= |log|
    ensures |items| == |log| - n
    ensures forall i :: 0 <= i < |items| ==> items[i] == Item(n + i + 1, log[n + i])
  {
    seq(|log| - n, i requires 0 <= i < |log| - n => Item(n + i + 1, log[n + i]))
  }

  /** `items` is what the ring retains: the window of its log above the floor. */
  ghost predicate Holds(items: seq<Item>, r: Ring)
    requires RingOk(r)
  {
    && |items| == |r.log| - Floor(r)
    && forall i :: 0 <= i < |items| ==> items[i] == Item(Floor(r) + i + 1, r.log[Floor(r) + i])
  }

  /** What `since(floor)` answers; a floor that is absent or not a finite number counts as 0. */
  function Replay(r: Ring, floor: Option<int>): seq<Item>
    requires RingOk(r)
  {
    var f := if floor.Some? then floor.value else 0;
    After(r.log, Min(|r.log|, Max(Floor(r), f)))
  }

  class RingBuffer {
    const capacity: nat
    var items: seq<Item>
    var lastSeq: nat
    ghost var log: seq<Payload>
    ghost var cleared: nat
    ghost var owner: object?  // the entry this ring belongs to

    ghost function Abs(): Ring
      reads this
    {
      Ring(capacity, log, cleared)
    }

    ghost predicate Valid()
      reads this
    {
      && RingOk(Abs()) && lastSeq == |log| && Holds(items, Abs())
    }

    /** `Math.max(1, capacity)` for an integer capacity. */
    constructor (capacity: int)
      ensures Valid() && Abs() == Ring(Max(1, capacity), [], 0)
    {
      this.capacity := Max(1, capacity);
      items, lastSeq, log, cleared, owner := [], 0, [], 0, null;
    }

    method Push(payload: Payload) returns (given: nat)
      requires Valid()
      modifies this`items, this`lastSeq, this`log
      ensures Valid() && Abs() == old(Abs()).(log := old(log) + [payload])
      ensures given == |log|
    {
      lastSeq := lastSeq + 1;
      items := items + [Item(lastSeq, payload)];
      if |items| > capacity { items := items[|items| - capacity..]; }
      log := log + [payload];
      return lastSeq;
    }

    method Since(floor: Option<int>) returns (kept: seq<Item>)
      requires Valid()
      ensures kept == Replay(Abs(), floor)
    {
      var f := if floor.Some? then floor.value else 0;
      if f <= 0 { return items; }
      kept := [];
      ghost var from := Min(|log|, Max(Floor(Abs()), f));
      for i := 0 to |items|
        invariant kept == After(log, from)[..Max(0, Floor(Abs()) + i - from)]
      {
        if items[i].seqNo > f { kept := kept + [items[i]]; }
      }
    }

    method Clear()
      requires Valid()
      modifies this`items, this`cleared
      ensures Valid() && Abs() == old(Abs()).(cleared := |old(log)|)
    {
      items := [];
      cleared := |log|;
    }
  }

  datatype Entry = Entry(ring: Ring, active: bool, touch: nat)

  class SessionEntry {
    const buffer: RingBuffer
    var active: bool
    var touch: nat
    ghost var home: string  // the key this entry is stored under

    /** This entry is stored under `key`, with a ring of its own, in state `x`. */
    ghost predicate Shows(key: string, x: Entry)
      reads this, buffer
    {
      home == key && buffer.owner == this && buffer.Valid() && x == Entry(buffer.Abs(), active, touch)
    }

    constructor (capacity: int, ghost key: string, active: bool, touch: nat)
      ensures fresh(buffer) && Shows(key, Entry(Ring(Max(1, capacity), [], 0), active, touch))
    {
      buffer := new RingBuffer(capacity);
      this.active, this.touch, home := active, touch, key;
      new;
      buffer.owner := this;
    }

    method SetFlags(active: bool, touch: nat, ghost key: string, ghost x: Entry)
      requires Shows(key, x)
      modifies this
      ensures Shows(key, x.(active := active, touch := touch))
    {
      this.active, this.touch := active, touch;
    }

    method Push(payload: Payload, ghost key: string, ghost x: Entry) returns (n: nat)
      requires Shows(key, x)
      modifies buffer
      ensures Shows(key, x.(ring := x.ring.(log := x.ring.log + [payload]))) && n == |x.ring.log| + 1
    {
      n := buffer.Push(payload);
    }

    method ClearRing(ghost key: string, ghost x: Entry)
      requires Shows(key, x)
      modifies buffer
      ensures Shows(key, x.(ring := x.ring.(cleared := |x.ring.log|)))
    {
      buffer.Clear();
    }

    ghost method MoveTo(key: string, newKey: string, x: Entry)
      requires Shows(key, x)
      modifies this`home
      ensures Shows(newKey, x)
    {
      home := newKey;
    }
  }

  // ---------------------------------------------------------------- the registry's abstract state

  datatype View = View(capacity: int, maxEntries: nat, entries: map<string, Entry>, tick: nat)

  /** Touches are pairwise distinct and never ahead of the tick counter. */
  predicate ViewOk(v: View) {
    && 1 <= v.maxEntries
    && (forall k :: k in v.entries ==> RingOk(v.entries[k].ring) && v.entries[k].touch <= v.tick)
    && (forall k, l :: k in v.entries && l in v.entries && k != l ==> v.entries[k].touch != v.entries[l].touch)
  }

  /** `k` is the least recently touched inactive entry. */
  predicate IsVictim(entries: map<string, Entry>, k: string) {
    && k in entries && !entries[k].active
    && forall l :: l in entries && !entries[l].active ==> entries[k].touch <= entries[l].touch
  }

  predicate AllActive(entries: map<string, Entry>) {
    forall k :: k in entries ==> entries[k].active
  }

  /** `_enforceCap`: at the cap the victim goes; a registry of live entries is never trimmed. */
  ghost function Capped(v: View): View {
    if |v.entries| < v.maxEntries || !exists k :: IsVictim(v.entries, k) then v
    else
      var k :| IsVictim(v.entries, k);
      v.(entries := v.entries - {k})
  }

  lemma VictimUnique(v: View, k: string, l: string)
    requires ViewOk(v) && IsVictim(v.entries, k) && IsVictim(v.entries, l)
    ensures k == l
  {
  }

  function NewEntry(v: View): Entry { Entry(Ring(Max(1, v.capacity), [], 0), true, v.tick + 1) }

  ghost function Created(v: View, key: string): View {
    var c := Capped(v);
    c.(tick := v.tick + 1, entries := c.entries[key := NewEntry(v)])
  }

  function Touched(v: View, key: string): View
    requires key in v.entries
  {
    v.(tick := v.tick + 1, entries := v.entries[key := v.entries[key].(touch := v.tick + 1)])
  }

  function Appended(v: View, key: string, payload: Payload): View
    requires key in v.entries
  {
    var e := v.entries[key];
    v.(entries := v.entries[key := e.(ring := e.ring.(log := e.ring.log + [payload]))])
  }

  ghost function Opened(v: View, key: string): View {
    if key in v.entries then
      v.(tick := v.tick + 1, entries := v.entries[key := v.entries[key].(active := true, touch := v.tick + 1)])
    else Created(v, key)
  }

  ghost function Recorded(v: View, key: string, payload: Payload): View {
    Appended(if key in v.entries then Touched(v, key) else Created(v, key), key, payload)
  }

  /** None: the collision the code refuses by throwing. */
  ghost function Rekeyed(v: View, oldKey: string, newKey: string): Option<View> {
    if oldKey == newKey then Some(v)
    else if oldKey !in v.entries then Some(if newKey in v.entries then v else Opened(v, newKey))
    else if newKey in v.entries then None
    else Some(v.(entries := v.entries[newKey := v.entries[oldKey]] - {oldKey}))
  }

  function ActiveSet(v: View, key: string, active: bool): View {
    if key in v.entries then v.(entries := v.entries[key := v.entries[key].(active := active)]) else v
  }

  function BufferCleared(v: View, key: string): View {
    if key in v.entries && !v.entries[key].active then
      var e := v.entries[key];
      v.(entries := v.entries[key := e.(ring := e.ring.(cleared := |e.ring.log|))])
    else v
  }

  function Dropped(v: View, key: string): View { v.(entries := v.entries - {key}) }

  /** What `attach` sends and returns. A floor above the counter belongs to an earlier entry and
      counts as 0. */
  function Attached(r: Ring, lastSeq: Option<int>): (seq<Item>, int)
    requires RingOk(r)
  {
    var floor := if lastSeq.Some? && lastSeq.value <= |r.log| then lastSeq.value else 0;
    var items := Replay(r, Some(floor));
    (items, if items == [] then floor else |r.log|)
  }

  // ---------------------------------------------------------------- the registry object

  class Registry {
    const capacity: int
    const maxEntries: nat
    var entries: map<string, SessionEntry>
    var tick: nat
    ghost var view: View
    ghost var Repr: set<object>

    ghost predicate Valid()
      reads this, Repr
    {
      && this in Repr
      && view.capacity == capacity && view.maxEntries == maxEntries && view.tick == tick
      && view.entries.Keys == entries.Keys
      && forall k :: k in entries ==>
           entries[k] in Repr && entries[k].buffer in Repr && entries[k].Shows(k, view.entries[k])
    }

    constructor (capacity: int, maxEntries: int)
      ensures Valid() && fresh(Repr) && view == View(capacity, Max(1, maxEntries), map[], 0)
    {
      this.capacity := capacity;
      this.maxEntries := Max(1, maxEntries);
      entries, tick := map[], 0;
      view := View(capacity, Max(1, maxEntries), map[], 0);
      Repr := {this};
    }

    /** The scan of `_enforceCap`, in whatever order the map comes. */
    method FindVictim() returns (victim: Option<string>)
      requires Valid()
      ensures victim.None? ==> AllActive(view.entries)
      ensures victim.Some? ==> IsVictim(view.entries, victim.value)
    {
      victim := None;
      ghost var es := view.entries;
      var todo := entries.Keys;
      while todo != {}
        invariant todo <= es.Keys
        invariant victim.None? ==> forall k :: k in es && k !in todo ==> es[k].active
        invariant victim.Some? ==>
                    && victim.value in es && !es[victim.value].active
                    && forall k :: k in es && k !in todo && !es[k].active ==> es[victim.value].touch <= es[k].touch
      {
        var k :| k in todo;
        todo := todo - {k};
        assert entries[k].Shows(k, es[k]);
        if !entries[k].active && (victim.None? || entries[k].touch < entries[victim.value].touch) {
          victim := Some(k);
        }
      }
    }

    method Drop(key: string)
      requires Valid()
      modifies this`entries, this`view
      ensures Valid() && view == Dropped(old(view), key) && entries == old(entries) - {key}
    {
      entries := entries - {key};
      view := Dropped(view, key);
    }

    method EnforceCap()
      requires Valid() && ViewOk(view)
      modifies this`entries, this`view
      ensures Valid() && view == Capped(old(view))
    {
      assert |view.entries| == |view.entries.Keys| == |entries.Keys|;
      if |entries| < maxEntries { return; }
      var victim := FindVictim();
      if victim.None? {
        assert forall k :: !IsVictim(view.entries, k);
        return;
      }
      forall k | IsVictim(view.entries, k) ensures k == victim.value { VictimUnique(view, k, victim.value); }
      Drop(victim.value);
    }

    method NextTick() returns (t: nat)
      requires Valid()
      modifies this`tick, this`view
      ensures Valid() && t == tick && view == old(view).(tick := old(view).tick + 1)
    {
      tick := tick + 1;
      view := view.(tick := tick);
      t := tick;
    }

    /** A new live entry under a free key, touched now. */
    method Place(key: string, touch: nat)
      requires Valid() && key !in entries
      modifies this`entries, this`view, this`Repr
      ensures Valid() && key in entries && fresh(Repr - old(Repr))
      ensures view == old(view).(entries := old(view).entries[key := Entry(Ring(Max(1, capacity), [], 0), true, touch)])
    {
      var entry := new SessionEntry(capacity, key, true, touch);
      entries := entries[key := entry];
      Repr := Repr + {entry, entry.buffer};
      view := view.(entries := view.entries[key := Entry(Ring(Max(1, capacity), [], 0), true, touch)]);
    }

    /** Makes room if needed and inserts a new live entry. */
    method Create(key: string)
      requires Valid() && ViewOk(view) && key !in entries
      modifies this`entries, this`view, this`tick, this`Repr
      ensures Valid() && view == Created(old(view), key)
      ensures key in entries && fresh(Repr - old(Repr))
    {
      EnforceCap();
      var touch := NextTick();
      Place(key, touch);
    }

    /** Changes the flags of one entry object in place. */
    method Update(key: string, active: bool, touch: nat)
      requires Valid() && key in entries
      modifies entries[key], this`view
      ensures Valid()
      ensures view == old(view).(entries :=
                old(view).entries[key := old(view).entries[key].(active := active, touch := touch)])
    {
      var entry := entries[key];
      assert forall k :: k in entries && k != key ==> entries[k].home != entry.home;
      entry.SetFlags(active, touch, key, view.entries[key]);
      view := view.(entries := view.entries[key := view.entries[key].(active := active, touch := touch)]);
    }

    method Append(key: string, payload: Payload) returns (n: nat)
      requires Valid() && key in entries
      modifies entries[key].buffer, this`view
      ensures Valid()
      ensures view == Appended(old(view), key, payload)
      ensures n == |view.entries[key].ring.log|
    {
      var entry := entries[key];
      assert entry.Shows(key, view.entries[key]);
      forall k | k in entries && k != key ensures entries[k].buffer != entry.buffer {
        assert entries[k].Shows(k, view.entries[k]);
      }
      n := entry.Push(payload, key, view.entries[key]);
      view := Appended(view, key, payload);
    }

    method Open(enabled: bool, key: string)
      requires Valid() && ViewOk(view)
      modifies Repr
      ensures Valid() && fresh(Repr - old(Repr))
      ensures view == if enabled && key != "" then Opened(old(view), key) else old(view)
    {
      if !enabled || key == "" { return; }
      if key !in entries {
        Create(key);
      } else {
        var touch := NextTick();
        Update(key, true, touch);
      }
    }

    method Record(enabled: bool, key: string, payload: Payload) returns (given: Option<nat>)
      requires Valid() && ViewOk(view)
      modifies Repr
      ensures Valid() && fresh(Repr - old(Repr))
      ensures view == if enabled && key != "" then Recorded(old(view), key, payload) else old(view)
      ensures given == if enabled && key != "" then Some(|view.entries[key].ring.log|) else None
    {
      if !enabled || key == "" { return None; }
      TouchOrCreate(key);
      var n := Append(key, payload);
      given := Some(n);
    }

    method Touch(key: string)
      requires Valid() && key in entries
      modifies entries[key], this`view, this`tick
      ensures Valid() && view == Touched(old(view), key)
    {
      var active := entries[key].active;
      assert active == view.entries[key].active by { assert entries[key].Shows(key, view.entries[key]); }
      var touch := NextTick();
      Update(key, active, touch);
    }

    method TouchOrCreate(key: string)
      requires Valid() && ViewOk(view)
      modifies Repr
      ensures Valid() && fresh(Repr - old(Repr)) && key in entries
      ensures view == if key in old(view).entries then Touched(old(view), key) else Created(old(view), key)
    {
      if key in entries { Touch(key); } else { Create(key); }
    }

    /** `collided`: the code throws instead of merging two runs. */
    method Rekey(enabled: bool, oldKey: string, newKey: string) returns (collided: bool)
      requires Valid() && ViewOk(view)
      modifies Repr
      ensures Valid() && fresh(Repr - old(Repr))
      ensures var off := !enabled || oldKey == "" || newKey == "";
              var moved := Rekeyed(old(view), oldKey, newKey);
              && collided == (!off && moved.None?)
              && view == if off || moved.None? then old(view) else moved.value
    {
      if !enabled || oldKey == "" || newKey == "" || oldKey == newKey { return false; }
      if oldKey !in entries {
        if newKey !in entries { Open(enabled, newKey); }
        return false;
      }
      if newKey in entries { return true; }
      Move(oldKey, newKey);
      return false;
    }

    /** Hands the entry object over, ring and seq counter with it. */
    method Move(oldKey: string, newKey: string)
      requires Valid() && oldKey in entries && newKey !in entries
      modifies this`entries, this`view, entries[oldKey]
      ensures Valid() && entries == old(entries)[newKey := old(entries[oldKey])] - {oldKey}
      ensures view == old(view).(entries := old(view).entries[newKey := old(view).entries[oldKey]] - {oldKey})
    {
      var source := entries[oldKey];
      assert forall k :: k in entries && k != oldKey ==> entries[k].home != source.home;
      source.MoveTo(oldKey, newKey, view.entries[oldKey]);
      entries := entries[newKey := source];
      entries := entries - {oldKey};
      view := view.(entries := view.entries[newKey := view.entries[oldKey]] - {oldKey});
    }

    method IsActive(enabled: bool, key: string) returns (active: bool)
      requires Valid()
      ensures active <==> enabled && key != "" && key in view.entries && view.entries[key].active
    {
      if !enabled || key == "" || key !in entries { return false; }
      assert entries[key].Shows(key, view.entries[key]);
      return entries[key].active;
    }

    method SetActive(enabled: bool, key: string, active: bool)
      requires Valid()
      modifies Repr
      ensures Valid() && Repr == old(Repr)
      ensures view == if enabled && key != "" then ActiveSet(old(view), key, active) else old(view)
    {
      if !enabled || key == "" || key !in entries { return; }
      assert entries[key].Shows(key, view.entries[key]);
      Update(key, active, entries[key].touch);
    }

    /** A live entry is never cleared. */
    method ClearInactiveBuffer(enabled: bool, key: string) returns (done: bool)
      requires Valid()
      modifies Repr
      ensures Valid() && Repr == old(Repr)
      ensures view == if enabled && key != "" then BufferCleared(old(view), key) else old(view)
      ensures done <==> enabled && key != "" && key in old(view).entries && !old(view).entries[key].active
    {
      if !enabled || key == "" || key !in entries { return false; }
      var entry := entries[key];
      assert entry.Shows(key, view.entries[key]);
      if entry.active { return false; }
      assert forall k :: k in entries && k != key ==> entries[k].home != entry.home;
      entry.ClearRing(key, view.entries[key]);
      view := BufferCleared(view, key);
      return true;
    }

    method LastSeq(enabled: bool, key: string) returns (n: nat)
      requires Valid()
      ensures n == if enabled && key != "" && key in view.entries then |view.entries[key].ring.log| else 0
    {
      if !enabled || key == "" || key !in entries { return 0; }
      assert entries[key].Shows(key, view.entries[key]);
      return entries[key].buffer.lastSeq;
    }

    /** `sent` is what the callback receives, in order; None: disabled or unknown. */
    method Attach(enabled: bool, key: string, lastSeq: Option<int>) returns (highest: Option<int>, sent: seq<Item>)
      requires Valid()
      ensures enabled && key != "" && key in view.entries ==>
                && sent == Attached(view.entries[key].ring, lastSeq).0
                && highest == Some(Attached(view.entries[key].ring, lastSeq).1)
      ensures !(enabled && key != "" && key in view.entries) ==> highest.None? && sent == []
    {
      sent := [];
      if !enabled || key == "" || key !in entries { return None, sent; }
      var buffer := entries[key].buffer;
      assert entries[key].Shows(key, view.entries[key]);
      var floor := if lastSeq.Some? && lastSeq.value <= buffer.lastSeq then lastSeq.value else 0;
      var top := floor;
      var items := buffer.Since(Some(floor));
      for i := 0 to |items|
        invariant sent == items[..i]
        invariant top == if i == 0 then floor else Max(floor, items[i-1].seqNo)
      {
        sent := sent + [items[i]];
        if items[i].seqNo > top { top := items[i].seqNo; }
      }
      highest := Some(top);
    }
  }
}
