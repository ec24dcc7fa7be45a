/**
 The store of profile buffers (`common/profilecache/store.go`): at most `maxSlots` slots, each with a
 buffer of its own, evicted least recently requested first. Buffers are objects of their own, so that a
 buffer can outlive its slot: slots name them by reference, and `heap` says what each one holds, in the
 terms `ProfileBuffer` proves the buffer to implement.
 */
module ProfileStore {
  import opened Wrappers
  import opened ProfileBuffer
  import opened ProfileEviction

  const DEFAULT_MAX_SLOTS := 100
  const DEFAULT_SLOT_MAX_BYTES := 5 * 1024 * 1024
  const DEFAULT_SLOT_TTL_SECONDS := 15 * 60

  datatype Ref = Ref(id: nat)

  datatype Buffer = Buffer(live: seq<Chunk>, maxBytes: int)

  datatype Slot = Slot(lastRequestAt: Time, buffer: Ref)

  datatype State = State(
    slots: map<Key, Slot>,
    heap: map<Ref, Buffer>,
    next: nat,              // references handed out so far are below this
    maxSlots: int,
    slotMaxBytes: int,
    ttlSeconds: int,
    evictedSlots: nat)

  datatype MemoryStats = MemoryStats(
    totalBytes: int, maxSlots: int, slotMaxBytes: int, slotTTLSeconds: int, maxTotalBytesBudget: int)

  function Times(slots: map<Key, Slot>): map<Key, Time> {
    map k | k in slots :: slots[k].lastRequestAt
  }

  /** `order` walks every slot once. */
  ghost predicate Walks(order: seq<Key>, slots: map<Key, Slot>) {
    Elements(order) == slots.Keys && forall k :: k in order ==> k in slots
  }

  // ---------- critical sections ----------

  ghost function Evict(s: State, order: seq<Key>): State {
    if !(forall k :: k in order ==> k in s.slots) then s
    else
      var oldest := Scan(order, Times(s.slots));
      if oldest == "" then s else s.(slots := s.slots - {oldest}, evictedSlots := s.evictedSlots + 1)
  }

  /** A new slot with an empty buffer of the current budget. */
  function NewSlot(s: State, key: Key, now: Time): State {
    s.(slots := s.slots[key := Slot(now, Ref(s.next))],
       heap := s.heap[Ref(s.next) := Buffer([], s.slotMaxBytes)],
       next := s.next + 1)
  }

  ghost function OpenSlot(s: State, key: Key, now: Time, order: seq<Key>): State {
    if key in s.slots then Touch(s, key, now)
    else NewSlot(if |s.slots| >= s.maxSlots then Evict(s, order) else s, key, now)
  }

  function Touch(s: State, key: Key, now: Time): State {
    if key in s.slots then s.(slots := s.slots[key := s.slots[key].(lastRequestAt := now)]) else s
  }

  function EmptySlot(s: State, key: Key, now: Time): State {
    if key in s.slots && s.slots[key].buffer in s.heap then
      var r := s.slots[key].buffer;
      Touch(s.(heap := s.heap[r := s.heap[r].(live := [])]), key, now)
    else s
  }

  function Sweep(s: State, cutoff: Time): State {
    s.(slots := map k | k in s.slots && s.slots[k].lastRequestAt >= cutoff :: s.slots[k])
  }

  /** What the buffer does with a chunk. */
  function AddTo(heap: map<Ref, Buffer>, r: Ref, c: Chunk): map<Ref, Buffer> {
    if r in heap then heap[r := heap[r].(live := Accept(heap[r].live, c, heap[r].maxBytes))] else heap
  }

  function Resized(b: Buffer, maxBytes: int): Buffer { Buffer(Trim(b.live, maxBytes), maxBytes) }

  function ResizeOne(heap: map<Ref, Buffer>, r: Ref, maxBytes: int): map<Ref, Buffer> {
    if r in heap then heap[r := Resized(heap[r], maxBytes)] else heap
  }

  function SetLimits(s: State, maxSlots: int, slotMaxBytes: int, ttlSeconds: int): State {
    s.(maxSlots := if maxSlots > 0 then maxSlots else s.maxSlots,
       slotMaxBytes := if slotMaxBytes > 0 then slotMaxBytes else s.slotMaxBytes,
       ttlSeconds := if ttlSeconds > 0 then ttlSeconds else s.ttlSeconds)
  }

  /** The eviction loop of a reconfiguration; `orders` are the walks of its successive scans. */
  ghost function EvictDown(s: State, orders: seq<seq<Key>>): State {
    if orders == [] then s else Evict(EvictDown(s, orders[..|orders| - 1]), orders[|orders| - 1])
  }

  /** Each scan starts with too many slots and walks the ones there are. */
  ghost predicate WalksDown(s: State, orders: seq<seq<Key>>) {
    orders == [] ||
    (WalksDown(s, orders[..|orders| - 1]) &&
     |EvictDown(s, orders[..|orders| - 1]).slots| > s.maxSlots &&
     Walks(orders[|orders| - 1], EvictDown(s, orders[..|orders| - 1]).slots))
  }

  /** The loop stops within the limit, or on a scan that found nothing to evict. */
  ghost predicate RunsOut(s: State, orders: seq<seq<Key>>) {
    |EvictDown(s, orders).slots| <= s.maxSlots ||
    (orders != [] && EvictDown(s, orders) == EvictDown(s, orders[..|orders| - 1]))
  }

  /** The resize loop of a reconfiguration. */
  function ResizeAll(heap: map<Ref, Buffer>, refs: set<Ref>, maxBytes: int): map<Ref, Buffer> {
    map r | r in heap :: if r in refs then Resized(heap[r], maxBytes) else heap[r]
  }

  function Refs(slots: map<Key, Slot>): set<Ref> {
    set k | k in slots :: slots[k].buffer
  }

  // ---------- what keeps the store sound ----------

  /** Slots have buffers of their own, and every buffer made fits its own positive budget. */
  ghost predicate Sound(s: State) {
    && s.maxSlots > 0 && s.slotMaxBytes > 0 && s.ttlSeconds > 0
    && Owned(s.slots, s.heap) && Fitting(s.heap, s.next)
  }

  /** Every slot has a buffer of its own. */
  ghost predicate Owned(slots: map<Key, Slot>, heap: map<Ref, Buffer>) {
    && (forall k :: k in slots ==> slots[k].buffer in heap)
    && (forall j, k :: j in slots && k in slots && slots[j].buffer == slots[k].buffer ==> j == k)
  }

  /** Every buffer handed out fits its own positive budget. */
  ghost predicate Fitting(heap: map<Ref, Buffer>, next: nat) {
    forall r :: r in heap ==> r.id < next && heap[r].maxBytes > 0 && Total(heap[r].live) <= heap[r].maxBytes
  }

  /** Every slot's buffer has the current budget. */
  ghost predicate Budgeted(s: State) {
    forall k :: k in s.slots ==> s.slots[k].buffer in s.heap && s.heap[s.slots[k].buffer].maxBytes == s.slotMaxBytes
  }

  /** No more slots than the limit, and none under the empty key. */
  ghost predicate Bounded(s: State) {
    |s.slots| <= s.maxSlots && "" !in s.slots
  }

  /** Slots only go, each of them counted, and nothing else changes. */
  ghost predicate OnlyEvicts(s: State, t: State) {
    && t == s.(slots := t.slots, evictedSlots := t.evictedSlots)
    && |t.slots| + t.evictedSlots == |s.slots| + s.evictedSlots
    && t.slots.Keys <= s.slots.Keys
    && (forall k :: k in t.slots ==> t.slots[k] == s.slots[k])
  }

  /** One slot has a new request time, and nothing else about the slots is new. */
  ghost predicate Touched(before: map<Key, Slot>, after: map<Key, Slot>, key: Key, now: Time) {
    && key in before && after.Keys == before.Keys
    && after[key].lastRequestAt == now && after[key].buffer == before[key].buffer
    && (forall k :: k in after && k != key ==> after[k] == before[k])
  }

  /** One buffer holds these chunks, within its budget as before, and all others are as before. */
  ghost predicate BufferSet(before: map<Ref, Buffer>, after: map<Ref, Buffer>, r: Ref, live: seq<Chunk>) {
    && r in before && after.Keys == before.Keys
    && after[r].live == live && after[r].maxBytes == before[r].maxBytes
    && (forall q :: q in after && q != r ==> after[q] == before[q])
  }

  /**
   The slot is open and just requested. If it had to be made, its buffer is new, empty and on budget, and
   a full store has counted each slot that made room for it. Nothing else is new.
   */
  ghost predicate Opened(s: State, t: State, key: Key, now: Time) {
    && t == s.(slots := t.slots, heap := t.heap, next := t.next, evictedSlots := t.evictedSlots)
    && (if key in s.slots then Touched(s.slots, t.slots, key, now) && t == s.(slots := t.slots)
        else
          && key in t.slots && t.slots[key].lastRequestAt == now
          && t.slots[key].buffer !in s.heap && t.heap == s.heap[t.slots[key].buffer := Buffer([], s.slotMaxBytes)]
          && (forall k :: k in t.slots && k != key ==> k in s.slots && t.slots[k] == s.slots[k])
          && |t.slots| + t.evictedSlots == |s.slots| + s.evictedSlots + 1
          && (|s.slots| < s.maxSlots ==> t.evictedSlots == s.evictedSlots))
  }

  /** The slots that stay are as before, and their buffers hold the longest suffix that fits the new budget. */
  ghost predicate Cut(s: State, t: State)
    requires Sound(s) && t.slotMaxBytes > 0
  {
    && t.heap.Keys == s.heap.Keys && |t.slots| + t.evictedSlots == |s.slots| + s.evictedSlots
    && (forall k :: k in t.slots ==>
          && k in s.slots && t.slots[k] == s.slots[k]
          && t.heap[t.slots[k].buffer].maxBytes == t.slotMaxBytes
          && LongestFit(s.heap[t.slots[k].buffer].live, t.heap[t.slots[k].buffer].live, t.slotMaxBytes))
    && (forall r :: r in t.heap && r !in Refs(t.slots) ==> t.heap[r] == s.heap[r])
  }

  lemma OnlyEvictsKeeps(s: State, t: State)
    requires Sound(s) && OnlyEvicts(s, t)
    ensures Sound(t) && (Budgeted(s) ==> Budgeted(t))
  {
  }

  lemma EvictKeeps(s: State, order: seq<Key>)
    requires Walks(order, s.slots)
    ensures var t := Evict(s, order);
      && OnlyEvicts(s, t)
      && ("" !in s.slots && s.slots != map[] ==> |t.slots| == |s.slots| - 1)
      && ("" !in s.slots ==> forall g :: g in s.slots && g !in t.slots ==> LeastRecent(Times(s.slots), g))
  {
    var times, t := Times(s.slots), Evict(s, order);
    ScanPicksKey(order, times);
    if "" !in s.slots {
      EvictsSomething(order, times);
      if s.slots != map[] {
        var k :| k in s.slots;
        assert k in times;
        assert t.slots.Keys == s.slots.Keys - {Scan(order, times)};
      }
    }
  }

  lemma TouchKeeps(s: State, key: Key, now: Time)
    requires Sound(s)
    ensures var t := Touch(s, key, now); Sound(t) && (Budgeted(s) ==> Budgeted(t)) && t.slots.Keys == s.slots.Keys
  {
  }

  lemma EmptySlotEmpties(s: State, key: Key, now: Time)
    requires Sound(s) && Budgeted(s) && key in s.slots
    ensures var t := EmptySlot(s, key, now);
      && Sound(t) && Budgeted(t)
      && Touched(s.slots, t.slots, key, now) && BufferSet(s.heap, t.heap, s.slots[key].buffer, [])
  {
  }

  lemma NewSlotOwned(slots: map<Key, Slot>, heap: map<Ref, Buffer>, key: Key, now: Time, r: Ref, b: Buffer)
    requires Owned(slots, heap) && key !in slots && r !in heap
    ensures Owned(slots[key := Slot(now, r)], heap[r := b]) && |slots[key := Slot(now, r)]| == |slots| + 1
  {
  }

  lemma NewSlotKeeps(s: State, key: Key, now: Time)
    requires Sound(s) && Budgeted(s) && key !in s.slots
    ensures var t := NewSlot(s, key, now); Sound(t) && Budgeted(t) && |t.slots| == |s.slots| + 1
  {
    assert Ref(s.next) !in s.heap;
    NewSlotOwned(s.slots, s.heap, key, now, Ref(s.next), Buffer([], s.slotMaxBytes));
  }

  /** Opening a slot keeps a bounded store bounded, and makes room only at its limit, by a least recent slot. */
  lemma OpenSlotKeeps(s: State, key: Key, now: Time, order: seq<Key>)
    requires Sound(s) && Budgeted(s) && Walks(order, s.slots)
    ensures var t := OpenSlot(s, key, now, order);
      && Sound(t) && Budgeted(t) && key in t.slots && t.slots[key].lastRequestAt == now
      && (Bounded(s) && key != "" ==> Bounded(t))
  {
    if key in s.slots {
      TouchKeeps(s, key, now);
    } else {
      var t := if |s.slots| >= s.maxSlots then Evict(s, order) else s;
      EvictKeeps(s, order);
      OnlyEvictsKeeps(s, t);
      assert |s.slots| >= s.maxSlots ==> s.slots != map[];
      NewSlotKeeps(t, key, now);
    }
  }

  /** Slots other than the opened one stay as they are, except for a least recent one at the limit. */
  lemma OpenSlotFrame(s: State, key: Key, now: Time, order: seq<Key>, g: Key)
    requires Walks(order, s.slots) && g != key
    ensures var t := OpenSlot(s, key, now, order);
      && (g in t.slots ==> g in s.slots && t.slots[g] == s.slots[g])
      && (g in s.slots && g !in t.slots ==>
            |s.slots| >= s.maxSlots && key !in s.slots && ("" !in s.slots ==> LeastRecent(Times(s.slots), g)))
  {
    EvictKeeps(s, order);
  }

  lemma NewSlotOpens(s: State, room: State, key: Key, now: Time)
    requires Sound(s) && OnlyEvicts(s, room) && key !in s.slots
    requires |s.slots| < s.maxSlots ==> room == s
    ensures Opened(s, NewSlot(room, key, now), key, now)
  {
    var t := NewSlot(room, key, now);
    assert Ref(s.next) !in s.heap;
    assert t.slots.Keys == room.slots.Keys + {key};
    assert t.slots[key] == Slot(now, Ref(s.next));
  }

  lemma OpenSlotOpens(s: State, key: Key, now: Time, order: seq<Key>)
    requires Sound(s) && Walks(order, s.slots)
    ensures Opened(s, OpenSlot(s, key, now, order), key, now)
  {
    if key in s.slots {
      assert Touched(s.slots, Touch(s, key, now).slots, key, now);
    } else {
      EvictKeeps(s, order);
      NewSlotOpens(s, if |s.slots| >= s.maxSlots then Evict(s, order) else s, key, now);
    }
  }

  lemma ResizedBuffer(heap: map<Ref, Buffer>, refs: set<Ref>, maxBytes: int, r: Ref)
    requires r in heap && maxBytes > 0
    ensures r in ResizeAll(heap, refs, maxBytes)
    ensures r in refs ==>
              var b := ResizeAll(heap, refs, maxBytes)[r];
              b.maxBytes == maxBytes && LongestFit(heap[r].live, b.live, maxBytes)
    ensures r !in refs ==> ResizeAll(heap, refs, maxBytes)[r] == heap[r]
  {
    TrimIsLongestFit(heap[r].live, maxBytes);
  }

  lemma ReconfiguredCuts(s: State, maxSlots: int, slotMaxBytes: int, ttlSeconds: int, orders: seq<seq<Key>>)
    requires Sound(s) && Completes(s, maxSlots, slotMaxBytes, ttlSeconds, orders)
    ensures var t := Reconfigured(s, maxSlots, slotMaxBytes, ttlSeconds, orders);
      t.slotMaxBytes > 0 && Cut(s, t)
  {
    var limited := SetLimits(s, maxSlots, slotMaxBytes, ttlSeconds);
    EvictDownOnlyEvicts(limited, orders);
    ResizedCuts(s, limited, EvictDown(limited, orders));
  }

  lemma ResizedCuts(s: State, limited: State, evicted: State)
    requires Sound(s) && OnlyEvicts(limited, evicted) && limited.slotMaxBytes > 0
    requires s == limited.(maxSlots := s.maxSlots, slotMaxBytes := s.slotMaxBytes, ttlSeconds := s.ttlSeconds)
    ensures Cut(s, evicted.(heap := ResizeAll(evicted.heap, Refs(evicted.slots), evicted.slotMaxBytes)))
  {
    forall r | r in s.heap ensures r in ResizeAll(s.heap, Refs(evicted.slots), limited.slotMaxBytes) {
      ResizedBuffer(s.heap, Refs(evicted.slots), limited.slotMaxBytes, r);
    }
    forall k | k in evicted.slots
      ensures var r := evicted.slots[k].buffer;
        var b := ResizeAll(s.heap, Refs(evicted.slots), limited.slotMaxBytes)[r];
        r in Refs(evicted.slots) && b.maxBytes == limited.slotMaxBytes &&
        LongestFit(s.heap[r].live, b.live, limited.slotMaxBytes)
    {
      ResizedBuffer(s.heap, Refs(evicted.slots), limited.slotMaxBytes, evicted.slots[k].buffer);
    }
  }

  lemma OpenSlotSize(s: State, key: Key, now: Time, order: seq<Key>)
    requires Walks(order, s.slots)
    ensures var n := |OpenSlot(s, key, now, order).slots|;
      n == if key in s.slots || (|s.slots| >= s.maxSlots && Scan(order, Times(s.slots)) != "") then |s.slots|
           else |s.slots| + 1
  {
    var t := if |s.slots| >= s.maxSlots then Evict(s, order) else s;
    if key in s.slots {
      assert OpenSlot(s, key, now, order).slots.Keys == s.slots.Keys;
    } else {
      EvictIsDrop(s, order, Scan(order, Times(s.slots)));
      assert t.slots.Keys <= s.slots.Keys;
      assert OpenSlot(s, key, now, order).slots.Keys == t.slots.Keys + {key};
      if t != s {
        assert t.slots.Keys == s.slots.Keys - {Scan(order, Times(s.slots))};
      }
    }
  }

  /** When the empty key is the only least recent one, a scan that meets it last finds nothing. */
  lemma HiddenWalk(slots: map<Key, Slot>)
    requires Hidden(Times(slots))
    ensures exists order :: Walks(order, slots) && Scan(order, Times(slots)) == ""
  {
    var front := SomeWalk(slots - {""});
    var order := front + [""];
    Extend(front, "");
    assert forall k :: k in front <==> k in Elements(front);
    ScanPicksKey(front, Times(slots));
    ScanOneMore(front, "", Times(slots));
    assert Walks(order, slots);
  }

  /**
   Whatever order the slots are scanned in, opening a slot keeps a store within its limit if and only if
   the key is open already, or there is room, or the empty key is not the only least recent one.
   */
  lemma BoundHoldsUnlessHidden(s: State, key: Key, now: Time)
    requires 0 < s.maxSlots && |s.slots| <= s.maxSlots
    ensures (forall order :: Walks(order, s.slots) ==> |OpenSlot(s, key, now, order).slots| <= s.maxSlots) <==>
              key in s.slots || |s.slots| < s.maxSlots || !Hidden(Times(s.slots))
  {
    if key in s.slots || |s.slots| < s.maxSlots || !Hidden(Times(s.slots)) {
      forall order | Walks(order, s.slots) ensures |OpenSlot(s, key, now, order).slots| <= s.maxSlots {
        OpenSlotSize(s, key, now, order);
        EvictsLeastRecent(order, Times(s.slots));
        assert |s.slots| > 0 ==> Times(s.slots) != map[] by {
          assert Times(s.slots).Keys == s.slots.Keys;
        }
      }
    } else {
      HiddenWalk(s.slots);
      var order :| Walks(order, s.slots) && Scan(order, Times(s.slots)) == "";
      OpenSlotSize(s, key, now, order);
    }
  }

  /** For instance, the empty key alone in a full store of one slot cannot be evicted. */
  lemma EmptyKeyBreaksBound(s: State, key: Key, now: Time)
    requires s.maxSlots == 1 && s.slots.Keys == {""} && key != ""
    ensures |OpenSlot(s, key, now, [""]).slots| == 2 > s.maxSlots
  {
  }

  /** Evicting in a loop drops slots only, whatever the keys. */
  lemma {:induction false} EvictDownOnlyEvicts(s: State, orders: seq<seq<Key>>)
    requires WalksDown(s, orders)
    ensures OnlyEvicts(s, EvictDown(s, orders))
  {
    if orders != [] {
      var front, last := orders[..|orders| - 1], orders[|orders| - 1];
      EvictDownOnlyEvicts(s, front);
      EvictKeeps(EvictDown(s, front), last);
    }
  }

  /** The eviction loop ends at the limit, and what it drops is no more recent than what it keeps. */
  lemma {:induction false} EvictDownKeeps(s: State, orders: seq<seq<Key>>)
    requires s.maxSlots > 0 && "" !in s.slots && WalksDown(s, orders)
    ensures var t := EvictDown(s, orders);
      && OnlyEvicts(s, t) && NoneMoreRecent(s.slots, t.slots)
      && |t.slots| == |s.slots| - |orders| && (orders == [] || |t.slots| >= s.maxSlots)
      && (RunsOut(s, orders) ==> |t.slots| <= s.maxSlots)
  {
    EvictDownOnlyEvicts(s, orders);
    if orders != [] {
      var front, last := orders[..|orders| - 1], orders[|orders| - 1];
      EvictDownKeeps(s, front);
      var u, t := EvictDown(s, front), EvictDown(s, orders);
      EvictKeeps(u, last);
      assert u.slots != map[];
      NoneMoreRecentStep(s.slots, u.slots, t.slots);
    }
  }

  lemma NoneMoreRecentStep(a: map<Key, Slot>, b: map<Key, Slot>, c: map<Key, Slot>)
    requires NoneMoreRecent(a, b) && b.Keys <= a.Keys && c.Keys <= b.Keys
    requires (forall k :: k in b ==> b[k] == a[k]) && (forall k :: k in c ==> c[k] == b[k])
    requires forall g :: g in b && g !in c ==> LeastRecent(Times(b), g)
    ensures NoneMoreRecent(a, c)
  {
    forall g, k | g in a && g !in c && k in c ensures a[g].lastRequestAt <= c[k].lastRequestAt {
      if g in b {
        assert LeastRecent(Times(b), g);
        assert Times(b)[g] <= Times(b)[k];
      }
    }
  }

  /** No slot that is gone was requested after one that stayed. */
  ghost predicate NoneMoreRecent(before: map<Key, Slot>, after: map<Key, Slot>) {
    forall g, k :: g in before && g !in after && k in after ==> before[g].lastRequestAt <= after[k].lastRequestAt
  }

  lemma AddToKeeps(s: State, r: Ref, c: Chunk)
    requires Sound(s)
    ensures var t := s.(heap := AddTo(s.heap, r, c)); Sound(t) && (Budgeted(s) ==> Budgeted(t))
  {
    AddToFits(s.heap, s.next, r, c);
  }

  lemma AddToFits(heap: map<Ref, Buffer>, next: nat, r: Ref, c: Chunk)
    requires Fitting(heap, next)
    ensures Fitting(AddTo(heap, r, c), next) && AddTo(heap, r, c).Keys == heap.Keys
    ensures forall q :: q in heap ==> AddTo(heap, r, c)[q].maxBytes == heap[q].maxBytes
  {
    if r in heap {
      AcceptFits(heap[r].live, c, heap[r].maxBytes);
      PutFits(heap, next, r, heap[r].(live := Accept(heap[r].live, c, heap[r].maxBytes)));
    }
  }

  /** What a buffer holds may be replaced by something that fits. */
  lemma PutFits(heap: map<Ref, Buffer>, next: nat, r: Ref, b: Buffer)
    requires Fitting(heap, next) && r in heap && b.maxBytes > 0 && Total(b.live) <= b.maxBytes
    ensures Fitting(heap[r := b], next)
  {
  }

  lemma ResizeOneKeeps(s: State, r: Ref)
    requires Sound(s)
    ensures Sound(s.(heap := ResizeOne(s.heap, r, s.slotMaxBytes)))
  {
    if r in s.heap {
      ResizedFits(s.heap[r], s.slotMaxBytes);
      PutFits(s.heap, s.next, r, Resized(s.heap[r], s.slotMaxBytes));
    }
  }

  lemma SweepKeeps(s: State, cutoff: Time)
    requires Sound(s) && Budgeted(s)
    ensures Sound(Sweep(s, cutoff)) && Budgeted(Sweep(s, cutoff))
  {
  }

  lemma ResizedFits(b: Buffer, maxBytes: int)
    requires maxBytes > 0
    ensures var r := Resized(b, maxBytes); r.maxBytes == maxBytes && Total(r.live) <= maxBytes
  {
    TrimIsSuffix(b.live, maxBytes);
  }

  lemma ResizeAllKeeps(s: State)
    requires Sound(s)
    ensures var t := s.(heap := ResizeAll(s.heap, Refs(s.slots), s.slotMaxBytes)); Sound(t) && Budgeted(t)
  {
    forall r | r in s.heap
      ensures var b := Resized(s.heap[r], s.slotMaxBytes); b.maxBytes == s.slotMaxBytes && Total(b.live) <= b.maxBytes
    {
      ResizedFits(s.heap[r], s.slotMaxBytes);
    }
    forall k | k in s.slots ensures s.slots[k].buffer in Refs(s.slots) { }
  }

  lemma ResizeOneMore(heap: map<Ref, Buffer>, done: set<Ref>, r: Ref, maxBytes: int)
    requires r !in done
    ensures ResizeOne(ResizeAll(heap, done, maxBytes), r, maxBytes) == ResizeAll(heap, done + {r}, maxBytes)
  {
  }

  ghost function Reconfigured(
      s: State, maxSlots: int, slotMaxBytes: int, ttlSeconds: int, orders: seq<seq<Key>>): State {
    var evicted := EvictDown(SetLimits(s, maxSlots, slotMaxBytes, ttlSeconds), orders);
    evicted.(heap := ResizeAll(evicted.heap, Refs(evicted.slots), evicted.slotMaxBytes))
  }

  /** The loop ran to its end, every scan over the slots there were. */
  ghost predicate Completes(s: State, maxSlots: int, slotMaxBytes: int, ttlSeconds: int, orders: seq<seq<Key>>) {
    var limited := SetLimits(s, maxSlots, slotMaxBytes, ttlSeconds);
    WalksDown(limited, orders) && RunsOut(limited, orders)
  }

  /**
   A reconfiguration leaves every slot with the new budget; with named slots only, as many of them as
   the new limit allows, and none dropped that was requested after one that stays.
   */
  lemma ReconfiguredKeeps(s: State, maxSlots: int, slotMaxBytes: int, ttlSeconds: int, orders: seq<seq<Key>>)
    requires Sound(s) && Completes(s, maxSlots, slotMaxBytes, ttlSeconds, orders)
    ensures var t := Reconfigured(s, maxSlots, slotMaxBytes, ttlSeconds, orders);
      && Sound(t) && Budgeted(t)
      && ("" !in s.slots ==>
            Bounded(t) && NoneMoreRecent(s.slots, t.slots) && |t.slots| == Least(|s.slots|, t.maxSlots))
  {
    var limited := SetLimits(s, maxSlots, slotMaxBytes, ttlSeconds);
    var evicted := EvictDown(limited, orders);
    EvictDownOnlyEvicts(limited, orders);
    OnlyEvictsKeeps(limited, evicted);
    ResizeAllKeeps(evicted);
    if "" !in s.slots {
      EvictDownKeeps(limited, orders);
    }
  }

  function Least(a: int, b: int): int { if a < b then a else b }

  /** The bytes buffered in the slots of `order`. */
  function TotalOf(s: State, order: seq<Key>): nat {
    if order == [] then 0
    else
      var k := order[|order| - 1];
      TotalOf(s, order[..|order| - 1]) +
      if k in s.slots && s.slots[k].buffer in s.heap then Total(s.heap[s.slots[k].buffer].live) else 0
  }

  lemma {:induction false} TotalIsBounded(s: State, order: seq<Key>)
    requires Sound(s) && Budgeted(s)
    ensures TotalOf(s, order) <= |order| * s.slotMaxBytes
  {
    if order != [] {
      var front, k := order[..|order| - 1], order[|order| - 1];
      TotalIsBounded(s, front);
      OneMore(|front|, s.slotMaxBytes);
      assert k in s.slots ==> Total(s.heap[s.slots[k].buffer].live) <= s.slotMaxBytes;
    }
  }

  lemma OneMore(n: nat, m: int)
    ensures (n + 1) * m == n * m + m
  {
  }

  lemma ScaleUp(a: nat, b: int, m: int)
    requires a <= b && m > 0
    ensures a * m <= b * m
  {
  }

  lemma {:induction false} DistinctLength<T>(order: seq<T>)
    requires Distinct(order)
    ensures |Elements(order)| == |order|
  {
    if order == [] {
      assert Elements(order) == {};
    } else {
      var front, last := order[..|order| - 1], order[|order| - 1];
      assert order == front + [last];
      Extend(front, last);
      DistinctLength(front);
      assert last !in Elements(front);
    }
  }

  /** All slots together never hold more than the limits allow. */
  lemma MemoryBound(s: State, order: seq<Key>)
    requires Sound(s) && Budgeted(s) && Bounded(s) && Distinct(order) && Walks(order, s.slots)
    ensures TotalOf(s, order) <= s.maxSlots * s.slotMaxBytes
  {
    TotalIsBounded(s, order);
    DistinctLength(order);
    assert |order| == |s.slots|;
    ScaleUp(|order|, s.maxSlots, s.slotMaxBytes);
  }

  // ---------- the store ----------

  class Store {
    var slots: map<Key, Slot>
    var heap: map<Ref, Buffer>
    var next: nat
    var maxSlots: int
    var slotMaxBytes: int
    var ttlSeconds: int
    var evictedSlots: nat

    ghost function Abs(): State
      reads this
    {
      State(slots, heap, next, maxSlots, slotMaxBytes, ttlSeconds, evictedSlots)
    }

    ghost predicate Valid()
      reads this
    {
      Sound(Abs()) && Budgeted(Abs())
    }

    /** Every limit that is not positive falls back to its default. */
    constructor (maxSlots: int, ttlSeconds: int, slotMaxBytes: int)
      ensures Valid() && Bounded(Abs()) && slots == map[]
      ensures this.maxSlots == if maxSlots <= 0 then DEFAULT_MAX_SLOTS else maxSlots
      ensures this.ttlSeconds == if ttlSeconds <= 0 then DEFAULT_SLOT_TTL_SECONDS else ttlSeconds
      ensures this.slotMaxBytes == if slotMaxBytes <= 0 then DEFAULT_SLOT_MAX_BYTES else slotMaxBytes
    {
      this.maxSlots := if maxSlots <= 0 then DEFAULT_MAX_SLOTS else maxSlots;
      this.ttlSeconds := if ttlSeconds <= 0 then DEFAULT_SLOT_TTL_SECONDS else ttlSeconds;
      this.slotMaxBytes := if slotMaxBytes <= 0 then DEFAULT_SLOT_MAX_BYTES else slotMaxBytes;
      slots, heap, next, evictedSlots := map[], map[], 0, 0;
    }

    method EvictOldestSlotLocked() returns (evicted: bool, ghost order: seq<Key>)
      modifies this`slots, this`evictedSlots
      ensures Walks(order, old(slots)) && Abs() == Evict(old(Abs()), order)
      ensures evicted <==> slots != old(slots)
      ensures !evicted ==> Abs() == old(Abs())
    {
      var oldestKey;
      oldestKey, order := ScanSlots();
      EvictIsDrop(Abs(), order, oldestKey);
      if oldestKey == "" {
        return false, order;
      }
      Drop(oldestKey);
      return true, order;
    }

    /** The loop that looks for the slot to evict. */
    method ScanSlots() returns (oldestKey: Key, ghost order: seq<Key>)
      ensures Walks(order, slots) && Scanned(order, Times(slots), oldestKey)
      ensures oldestKey == "" || oldestKey in slots
    {
      order := [];
      ghost var times := Times(slots);
      var oldest := ZERO_TIME;
      oldestKey := "";
      var remaining := slots.Keys;
      while |remaining| != 0
        invariant remaining <= slots.Keys && Elements(order) == slots.Keys - remaining
        invariant Scanned(order, times, oldestKey)
        invariant oldestKey != "" ==> oldestKey in slots && oldest == slots[oldestKey].lastRequestAt
        decreases remaining
      {
        var k :| k in remaining;
        remaining := remaining - {k};
        Extend(order, k);
        ScannedMore(order, slots, oldestKey, k);
        order := order + [k];
        if oldestKey == "" || slots[k].lastRequestAt < oldest {
          oldest := slots[k].lastRequestAt;
          oldestKey := k;
        }
      }
      assert slots.Keys - remaining == slots.Keys;
      AllWalked(order, slots);
    }

    method Drop(key: Key)
      requires key in slots
      modifies this`slots, this`evictedSlots
      ensures Abs() == old(Abs()).(slots := old(slots) - {key}, evictedSlots := old(evictedSlots) + 1)
      ensures slots != old(slots)
    {
      slots := slots - {key};
      evictedSlots := evictedSlots + 1;
      assert key !in slots;
    }

    method EnsureSlot(sourceKey: Key, now: Time) returns (ghost order: seq<Key>)
      requires Valid()
      modifies this
      ensures Valid() && (old(Bounded(Abs())) && sourceKey != "" ==> Bounded(Abs()))
      ensures Walks(order, old(slots)) && Abs() == OpenSlot(old(Abs()), sourceKey, now, order)
      ensures Opened(old(Abs()), Abs(), sourceKey, now)
    {
      order := SomeWalk(slots);
      if sourceKey in slots {
        slots := slots[sourceKey := slots[sourceKey].(lastRequestAt := now)];
      } else {
        if |slots| >= maxSlots {
          var evicted;
          evicted, order := EvictOldestSlotLocked();
        }
        AddSlot(sourceKey, now);
      }
      OpenSlotKeeps(old(Abs()), sourceKey, now, order);
      OpenSlotOpens(old(Abs()), sourceKey, now, order);
    }

    method AddSlot(sourceKey: Key, now: Time)
      modifies this`slots, this`heap, this`next
      ensures Abs() == NewSlot(old(Abs()), sourceKey, now)
    {
      slots := slots[sourceKey := Slot(now, Ref(next))];
      heap := heap[Ref(next) := Buffer([], slotMaxBytes)];
      next := next + 1;
    }

    method RemoveSlot(sourceKey: Key)
      requires Valid()
      modifies this`slots
      ensures Valid() && slots == old(slots) - {sourceKey}
    {
      slots := slots - {sourceKey};
    }

    method ClearAllSlots()
      requires Valid()
      modifies this`slots
      ensures Valid() && slots == map[]
    {
      slots := map[];
    }

    method ClearSlotBuffer(sourceKey: Key, now: Time) returns (ok: bool)
      requires Valid()
      modifies this`slots, this`heap
      ensures Valid() && ok == (sourceKey in old(slots))
      ensures Abs() == EmptySlot(old(Abs()), sourceKey, now)
      ensures !ok ==> Abs() == old(Abs())
      ensures ok ==> Touched(old(slots), slots, sourceKey, now)
      ensures ok ==> BufferSet(old(heap), heap, slots[sourceKey].buffer, [])
    {
      if sourceKey !in slots {
        return false;
      }
      var r := slots[sourceKey].buffer;
      slots := slots[sourceKey := slots[sourceKey].(lastRequestAt := now)];
      heap := heap[r := heap[r].(live := [])];
      EmptySlotEmpties(old(Abs()), sourceKey, now);
      return true;
    }

    /** The first critical section of AddProfileData and of the snapshots: look the buffer up. */
    method FindBuffer(sourceKey: Key) returns (r: Option<Ref>)
      ensures r == if sourceKey in slots then Some(slots[sourceKey].buffer) else None
    {
      if sourceKey in slots {
        return Some(slots[sourceKey].buffer);
      }
      return None;
    }

    /** The second one: append, whatever has become of the slot meanwhile. */
    method AddToBuffer(r: Ref, now: Time, chunk: Bytes)
      requires Valid()
      modifies this`heap
      ensures Valid() && heap == AddTo(old(heap), r, Chunk(now, chunk))
    {
      AddToKeeps(Abs(), r, Chunk(now, chunk));
      heap := AddTo(heap, r, Chunk(now, chunk));
    }

    /** Appends to an open slot; data for a source nobody opened is dropped. */
    method AddProfileData(sourceKey: Key, now: Time, chunk: Bytes)
      requires Valid()
      modifies this`heap
      ensures Valid()
      ensures heap == if sourceKey in slots
                      then AddTo(old(heap), slots[sourceKey].buffer, Chunk(now, chunk)) else old(heap)
      ensures sourceKey in slots ==>
                var b := old(heap)[slots[sourceKey].buffer];
                BufferSet(old(heap), heap, slots[sourceKey].buffer, Accept(b.live, Chunk(now, chunk), b.maxBytes))
    {
      var r := FindBuffer(sourceKey);
      if r.Some? {
        AddToBuffer(r.value, now, chunk);
      }
    }

    /** Reads a slot; a read on behalf of the user also counts as a request. */
    method Snapshot(sourceKey: Key, since: Time, bumpRequest: bool, now: Time) returns (out: seq<Bytes>)
      requires Valid()
      modifies this`slots
      ensures Valid()
      ensures Abs() == if bumpRequest then Touch(old(Abs()), sourceKey, now) else old(Abs())
      ensures if bumpRequest && sourceKey in old(slots) then Touched(old(slots), slots, sourceKey, now)
              else slots == old(slots)
      ensures out == if sourceKey in slots then BytesSince(heap[slots[sourceKey].buffer].live, since) else []
    {
      if sourceKey in slots && bumpRequest {
        slots := slots[sourceKey := slots[sourceKey].(lastRequestAt := now)];
      }
      var r := FindBuffer(sourceKey);
      if r.None? {
        return [];
      }
      return BytesSince(heap[r.value].live, since);
    }

    /** Drops exactly the slots idle for longer than the time to live. */
    method SweepNow(now: Time)
      requires Valid()
      modifies this`slots
      ensures Valid() && Abs() == Sweep(old(Abs()), now - ttlSeconds)
      ensures forall k :: k in slots <==> k in old(slots) && now - old(slots)[k].lastRequestAt <= ttlSeconds
      ensures forall k :: k in slots ==> slots[k] == old(slots)[k]
      ensures Abs() == old(Abs()).(slots := slots)
    {
      SweepSlots(now - ttlSeconds);
      SweepKeeps(old(Abs()), now - ttlSeconds);
    }

    /** The loop over the slots, deleting from the map it walks. */
    method SweepSlots(cutoff: Time)
      modifies this`slots
      ensures slots == map k | k in old(slots) && old(slots)[k].lastRequestAt >= cutoff :: old(slots)[k]
    {
      var remaining := slots.Keys;
      while |remaining| != 0
        invariant remaining <= old(slots).Keys
        invariant slots ==
                  map k | k in old(slots) && (k in remaining || old(slots)[k].lastRequestAt >= cutoff) :: old(slots)[k]
        decreases remaining
      {
        var k :| k in remaining;
        remaining := remaining - {k};
        DropIdle(k, cutoff);
      }
    }

    method DropIdle(k: Key, cutoff: Time)
      requires k in slots
      modifies this`slots
      ensures slots == if old(slots)[k].lastRequestAt < cutoff then old(slots) - {k} else old(slots)
    {
      if slots[k].lastRequestAt < cutoff {
        slots := slots - {k};
      }
    }

    /** The bytes buffered and the limits; a bounded store never reports more than its budget. */
    method GetMemoryStats() returns (stats: MemoryStats, ghost order: seq<Key>)
      requires Valid()
      ensures Distinct(order) && Walks(order, slots)
      ensures stats == MemoryStats(TotalOf(Abs(), order), maxSlots, slotMaxBytes, ttlSeconds, maxSlots * slotMaxBytes)
      ensures Bounded(Abs()) ==> stats.totalBytes <= stats.maxTotalBytesBudget
    {
      order := [];
      var total := 0;
      var remaining := slots.Keys;
      while |remaining| != 0
        invariant remaining <= slots.Keys && Distinct(order) && Elements(order) == slots.Keys - remaining
        invariant forall k :: k in order ==> k in slots && k !in remaining
        invariant total == TotalOf(Abs(), order)
        decreases remaining
      {
        var k :| k in remaining;
        remaining := remaining - {k};
        Extend(order, k);
        order := order + [k];
        total := total + Size(heap[slots[k].buffer]);
      }
      assert slots.Keys - remaining == slots.Keys;
      stats := MemoryStats(total, maxSlots, slotMaxBytes, ttlSeconds, maxSlots * slotMaxBytes);
      if Bounded(Abs()) {
        MemoryBound(Abs(), order);
      }
    }

    /**
     New limits at run time; an argument that is not positive keeps the current value. Slots beyond the
     new limit go, none of them requested after a slot that stays, and what stays is cut to the new budget.
     */
    method Reconfigure(newMaxSlots: int, newSlotMaxBytes: int, newTtlSeconds: int) returns (ghost orders: seq<seq<Key>>)
      requires Valid()
      modifies this
      ensures Completes(old(Abs()), newMaxSlots, newSlotMaxBytes, newTtlSeconds, orders)
      ensures Abs() == Reconfigured(old(Abs()), newMaxSlots, newSlotMaxBytes, newTtlSeconds, orders)
      ensures Valid() && ("" !in old(slots) ==> Bounded(Abs()))
      ensures maxSlots == (if newMaxSlots > 0 then newMaxSlots else old(maxSlots))
      ensures slotMaxBytes == (if newSlotMaxBytes > 0 then newSlotMaxBytes else old(slotMaxBytes))
      ensures ttlSeconds == (if newTtlSeconds > 0 then newTtlSeconds else old(ttlSeconds))
      ensures Cut(old(Abs()), Abs())
    {
      Limit(newMaxSlots, newSlotMaxBytes, newTtlSeconds);
      orders := EvictToLimit();
      ghost var evicted := Abs();
      assert Completes(old(Abs()), newMaxSlots, newSlotMaxBytes, newTtlSeconds, orders);
      ReconfiguredKeeps(old(Abs()), newMaxSlots, newSlotMaxBytes, newTtlSeconds, orders);
      EvictDownOnlyEvicts(SetLimits(old(Abs()), newMaxSlots, newSlotMaxBytes, newTtlSeconds), orders);
      OnlyEvictsKeeps(SetLimits(old(Abs()), newMaxSlots, newSlotMaxBytes, newTtlSeconds), evicted);
      ResizeEvery();
      ReconfiguredCuts(old(Abs()), newMaxSlots, newSlotMaxBytes, newTtlSeconds, orders);
    }

    method Limit(newMaxSlots: int, newSlotMaxBytes: int, newTtlSeconds: int)
      requires Sound(Abs())
      modifies this`maxSlots, this`slotMaxBytes, this`ttlSeconds
      ensures Sound(Abs()) && Abs() == SetLimits(old(Abs()), newMaxSlots, newSlotMaxBytes, newTtlSeconds)
    {
      if newMaxSlots > 0 {
        maxSlots := newMaxSlots;
      }
      if newSlotMaxBytes > 0 {
        slotMaxBytes := newSlotMaxBytes;
      }
      if newTtlSeconds > 0 {
        ttlSeconds := newTtlSeconds;
      }
    }

    /** The eviction loop of a reconfiguration. */
    method EvictToLimit() returns (ghost orders: seq<seq<Key>>)
      requires maxSlots > 0
      modifies this`slots, this`evictedSlots
      ensures WalksDown(old(Abs()), orders) && RunsOut(old(Abs()), orders)
      ensures Abs() == EvictDown(old(Abs()), orders)
    {
      orders := [];
      ghost var limited := Abs();
      while |slots| > maxSlots
        invariant WalksDown(limited, orders) && Abs() == EvictDown(limited, orders)
        decreases |slots|
      {
        ghost var before := Abs();
        var evicted;
        ghost var order;
        evicted, order := EvictOldestSlotLocked();
        EvictDownOnlyEvicts(limited, orders);
        EvictKeeps(before, order);
        assert before.slots != map[];
        assert (orders + [order])[..|orders|] == orders;
        orders := orders + [order];
        if !evicted {
          assert RunsOut(limited, orders);
          break;
        }
        FewerSlots(before.slots, slots);
      }
    }

    method ResizeEvery()
      requires Sound(Abs())
      modifies this`heap
      ensures heap == ResizeAll(old(heap), Refs(slots), slotMaxBytes)
    {
      var remaining := slots.Keys;
      ghost var done: set<Ref> := {};
      while |remaining| != 0
        invariant remaining <= slots.Keys && ResizeFront(slots, remaining, done)
        invariant heap == ResizeAll(old(heap), done, slotMaxBytes)
        decreases remaining
      {
        var k :| k in remaining;
        remaining := remaining - {k};
        var r := slots[k].buffer;
        ResizeFrontMoves(slots, heap, remaining + {k}, done, k);
        ResizeOneMore(old(heap), done, r, slotMaxBytes);
        done := done + {r};
        heap := ResizeOne(heap, r, slotMaxBytes);
      }
      assert done == Refs(slots);
    }
  }

  lemma ScanOneMore(order: seq<Key>, k: Key, times: map<Key, Time>)
    requires (forall j :: j in order ==> j in times) && k in times
    ensures forall j :: j in order + [k] ==> j in times
    ensures var oldest := Scan(order, times);
      Scan(order + [k], times) == if oldest == "" || (oldest in times && times[k] < times[oldest]) then k else oldest
  {
  }

  /** The candidate after walking these slots. */
  ghost predicate Scanned(order: seq<Key>, times: map<Key, Time>, oldest: Key) {
    (forall j :: j in order ==> j in times) && oldest == Scan(order, times)
  }

  lemma ScannedMore(order: seq<Key>, slots: map<Key, Slot>, oldest: Key, k: Key)
    requires Scanned(order, Times(slots), oldest) && k in slots && (oldest != "" ==> oldest in slots)
    ensures Scanned(order + [k], Times(slots),
      if oldest == "" || slots[k].lastRequestAt < slots[oldest].lastRequestAt then k else oldest)
  {
    ScanOneMore(order, k, Times(slots));
  }

  lemma AllWalked(order: seq<Key>, slots: map<Key, Slot>)
    requires Elements(order) == slots.Keys
    ensures Walks(order, slots)
  {
    assert forall k :: k in order ==> k in Elements(order);
  }

  lemma EvictIsDrop(s: State, order: seq<Key>, oldest: Key)
    requires Walks(order, s.slots) && oldest == Scan(order, Times(s.slots))
    ensures Evict(s, order) ==
              if oldest == "" then s else s.(slots := s.slots - {oldest}, evictedSlots := s.evictedSlots + 1)
    ensures oldest == "" || oldest in s.slots
  {
    ScanPicksKey(order, Times(s.slots));
  }

  /** The buffers of the slots already visited, and no others. */
  ghost predicate ResizeFront(slots: map<Key, Slot>, remaining: set<Key>, done: set<Ref>) {
    && done <= Refs(slots)
    && (forall k :: k in remaining && k in slots ==> slots[k].buffer !in done)
    && (forall k :: k in slots && k !in remaining ==> slots[k].buffer in done)
  }

  lemma ResizeFrontMoves(slots: map<Key, Slot>, heap: map<Ref, Buffer>, remaining: set<Key>, done: set<Ref>, k: Key)
    requires Owned(slots, heap) && ResizeFront(slots, remaining, done) && k in remaining && k in slots
    ensures slots[k].buffer !in done
    ensures ResizeFront(slots, remaining - {k}, done + {slots[k].buffer})
  {
  }

  lemma FewerSlots(a: map<Key, Slot>, b: map<Key, Slot>)
    requires b.Keys <= a.Keys && a != b && forall k :: k in b ==> b[k] == a[k]
    ensures |b| < |a|
  {
    assert b.Keys != a.Keys;
    SubsetIsSmaller(b.Keys, a.Keys);
  }

  function Size(b: Buffer): nat { Total(b.live) }

  ghost function SomeWalk(slots: map<Key, Slot>): (order: seq<Key>)
    ensures Walks(order, slots)
    decreases |slots|
  {
    if slots == map[] then []
    else
      var k :| k in slots;
      var rest := slots - {k};
      assert |rest.Keys| < |slots.Keys|;
      Extend(SomeWalk(rest), k);
      SomeWalk(rest) + [k]
  }
}
