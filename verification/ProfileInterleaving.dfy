/**
 The profile store under concurrent callers (`common/profilecache/store.go`, `buffer.go`). Each step is
 one critical section of one goroutine. Appending data takes two of them with a gap in between, in which
 the slot may be removed, evicted, reopened or resized; a reconfiguration resizes the buffers one by one
 while appends go on; statistics visit the buffers one by one under the read lock.
 */
module ProfileInterleaving {
  import opened Wrappers
  import opened ProfileBuffer
  import opened ProfileEviction
  import opened ProfileStore

  type Thread = string

  /** A goroutine in the gap of AddProfileData: it has looked the buffer up and not appended yet. */
  datatype Pending = Pending(key: Key, buffer: Ref, bytes: Bytes)

  /** A goroutine adding up the sizes of the buffers; `remaining` are the slots it has still to visit. */
  datatype Reader = Reader(remaining: set<Key>, total: nat)

  datatype System = System(
    store: State,
    pending: map<Thread, Pending>,
    resizing: Option<set<Key>>,        // a reconfiguration under the write lock, with the slots to resize
    readers: map<Thread, Reader>)

  datatype Step =
    | Open(key: Key, now: Time, order: seq<Key>)
    | Remove(key: Key)
    | RemoveAll
    | Empty(key: Key, now: Time)
    | Bump(key: Key, now: Time)
    | Expire(cutoff: Time)
    | Find(thread: Thread, key: Key, bytes: Bytes)
    | Append(thread: Thread, now: Time)
    | BeginReconfigure(maxSlots: int, slotMaxBytes: int, ttlSeconds: int, orders: seq<seq<Key>>)
    | ResizeNext(key: Key)
    | EndReconfigure
    | BeginStats(thread: Thread)
    | ReadNext(thread: Thread, key: Key)
    | EndStats(thread: Thread)

  /** Nobody holds the lock of the store. */
  predicate Unlocked(sys: System) {
    sys.resizing == None && sys.readers == map[]
  }

  /** What the locks and the program order of each goroutine allow. Appending needs no lock of the store. */
  ghost predicate Enabled(sys: System, step: Step) {
    match step
    case Open(_, _, order) => Unlocked(sys) && Walks(order, sys.store.slots)
    case Remove(_) => Unlocked(sys)
    case RemoveAll => Unlocked(sys)
    case Empty(_, _) => Unlocked(sys)
    case Bump(_, _) => Unlocked(sys)
    case Expire(_) => Unlocked(sys)
    case Find(thread, _, _) => sys.resizing == None && thread !in sys.pending
    case Append(thread, _) => thread in sys.pending
    case BeginReconfigure(maxSlots, slotMaxBytes, ttlSeconds, orders) =>
      var limited := SetLimits(sys.store, maxSlots, slotMaxBytes, ttlSeconds);
      Unlocked(sys) && WalksDown(limited, orders) && RunsOut(limited, orders)
    case ResizeNext(key) => sys.resizing.Some? && key in sys.resizing.value && key in sys.store.slots
    case EndReconfigure => sys.resizing == Some({})
    case BeginStats(thread) => sys.resizing == None && thread !in sys.readers
    case ReadNext(thread, key) => thread in sys.readers && key in sys.readers[thread].remaining
    case EndStats(thread) => thread in sys.readers && sys.readers[thread].remaining == {}
  }

  ghost function Do(sys: System, step: Step): System
    requires Enabled(sys, step)
  {
    var s := sys.store;
    match step
    case Open(key, now, order) => sys.(store := OpenSlot(s, key, now, order))
    case Remove(key) => sys.(store := s.(slots := s.slots - {key}))
    case RemoveAll => sys.(store := s.(slots := map[]))
    case Empty(key, now) => sys.(store := EmptySlot(s, key, now))
    case Bump(key, now) => sys.(store := Touch(s, key, now))
    case Expire(cutoff) => sys.(store := Sweep(s, cutoff))
    case Find(thread, key, bytes) =>
      if key in s.slots then sys.(pending := sys.pending[thread := Pending(key, s.slots[key].buffer, bytes)]) else sys
    case Append(thread, now) => DoAppend(sys, thread, now)
    case BeginReconfigure(maxSlots, slotMaxBytes, ttlSeconds, orders) =>
      var evicted := EvictDown(SetLimits(s, maxSlots, slotMaxBytes, ttlSeconds), orders);
      sys.(store := evicted, resizing := Some(evicted.slots.Keys))
    case ResizeNext(key) =>
      sys.(store := s.(heap := ResizeOne(s.heap, s.slots[key].buffer, s.slotMaxBytes)),
           resizing := Some(sys.resizing.value - {key}))
    case EndReconfigure => sys.(resizing := None)
    case BeginStats(thread) => sys.(readers := sys.readers[thread := Reader(s.slots.Keys, 0)])
    case ReadNext(thread, key) =>
      var r := sys.readers[thread];
      sys.(readers := sys.readers[thread := Reader(r.remaining - {key}, r.total + SizeAt(s, key))])
    case EndStats(thread) => sys.(readers := sys.readers - {thread})
  }

  function DoAppend(sys: System, thread: Thread, now: Time): System
    requires thread in sys.pending
  {
    var p := sys.pending[thread];
    sys.(store := sys.store.(heap := AddTo(sys.store.heap, p.buffer, Chunk(now, p.bytes))),
         pending := sys.pending - {thread})
  }

  function SizeAt(s: State, key: Key): nat {
    if key in s.slots && s.slots[key].buffer in s.heap then Total(s.heap[s.slots[key].buffer].live) else 0
  }

  /**
   Outside openings and reconfigurations, a slot goes exactly if it is removed, with all others or by
   itself, or is swept after its time; sweeping changes nothing else.
   */
  lemma SlotGoesIff(sys: System, step: Step, key: Key)
    requires Enabled(sys, step) && key in sys.store.slots && !step.Open? && !step.BeginReconfigure?
    ensures var s, t := sys.store, Do(sys, step).store;
      && (key !in t.slots <==>
            step.RemoveAll? || step == Remove(key) || (step.Expire? && s.slots[key].lastRequestAt < step.cutoff))
      && (step.Expire? && key in t.slots ==> t.slots[key] == s.slots[key])
      && (step.Expire? ==> Do(sys, step) == sys.(store := s.(slots := t.slots)))
  {
  }

  /** A slot comes exactly by being opened. */
  lemma SlotComesIff(sys: System, step: Step, key: Key)
    requires Enabled(sys, step) && key !in sys.store.slots
    ensures key in Do(sys, step).store.slots <==> step.Open? && step.key == key
  {
    if step.Open? {
      if key != step.key {
        OpenSlotFrame(sys.store, step.key, step.now, step.order, key);
      }
    } else if step.BeginReconfigure? {
      EvictDownOnlyEvicts(SetLimits(sys.store, step.maxSlots, step.slotMaxBytes, step.ttlSeconds), step.orders);
    }
  }

  /** What each step does to the slots and buffers, in the terms in which the methods promise it. */
  ghost predicate Does(sys: System, step: Step, next: System)
    requires Enabled(sys, step)
  {
    var s, t := sys.store, next.store;
    match step
    case Open(key, now, _) => next == sys.(store := t) && Opened(s, t, key, now)
    case Empty(key, now) =>
      next == sys.(store := t) &&
      if key in s.slots then
        Touched(s.slots, t.slots, key, now) && BufferSet(s.heap, t.heap, s.slots[key].buffer, []) &&
        t == s.(slots := t.slots, heap := t.heap)
      else t == s
    case Bump(key, now) =>
      next == sys.(store := t) && t == s.(slots := t.slots) &&
      if key in s.slots then Touched(s.slots, t.slots, key, now) else t == s
    case Find(thread, key, bytes) =>
      t == s &&
      if key in s.slots then
        thread in next.pending && next.pending[thread] == Pending(key, s.slots[key].buffer, bytes)
      else next == sys
    case Append(thread, now) =>
      var p := sys.pending[thread];
      thread !in next.pending && t == s.(heap := t.heap) &&
      (p.buffer in s.heap ==>
        BufferSet(s.heap, t.heap, p.buffer,
          Accept(s.heap[p.buffer].live, Chunk(now, p.bytes), s.heap[p.buffer].maxBytes)))
    case ReadNext(thread, key) =>
      t == s && thread in next.readers &&
      next.readers[thread].remaining == sys.readers[thread].remaining - {key} &&
      next.readers[thread].total == sys.readers[thread].total +
        if key in s.slots && s.slots[key].buffer in s.heap then Total(s.heap[s.slots[key].buffer].live) else 0
    case ResizeNext(key) =>
      t == s.(heap := t.heap) && next.resizing == Some(sys.resizing.value - {key}) &&
      (s.slots[key].buffer in s.heap && s.slotMaxBytes > 0 ==>
        && s.slots[key].buffer in t.heap && t.heap[s.slots[key].buffer].maxBytes == s.slotMaxBytes
        && LongestFit(s.heap[s.slots[key].buffer].live, t.heap[s.slots[key].buffer].live, s.slotMaxBytes))
    case BeginStats(thread) =>
      t == s && thread in next.readers && next.readers[thread] == Reader(s.slots.Keys, 0)
    case _ => true
  }

  lemma StepDoes(sys: System, step: Step)
    requires Enabled(sys, step) && Sound(sys.store)
    ensures Does(sys, step, Do(sys, step))
  {
    var s := sys.store;
    match step
    case Open(key, now, order) => OpenSlotOpens(s, key, now, order);
    case Empty(key, now) => if key in s.slots { EmptySlotSets(s, key, now); }
    case Bump(key, now) => if key in s.slots { assert Touched(s.slots, Touch(s, key, now).slots, key, now); }
    case Append(thread, now) =>
      AddToSets(s.heap, sys.pending[thread].buffer, Chunk(now, sys.pending[thread].bytes));
    case ResizeNext(key) =>
      if s.slots[key].buffer in s.heap && s.slotMaxBytes > 0 {
        TrimIsLongestFit(s.heap[s.slots[key].buffer].live, s.slotMaxBytes);
      }
    case _ =>
  }

  lemma EmptySlotSets(s: State, key: Key, now: Time)
    requires key in s.slots && s.slots[key].buffer in s.heap
    ensures var t := EmptySlot(s, key, now);
      && Touched(s.slots, t.slots, key, now) && BufferSet(s.heap, t.heap, s.slots[key].buffer, [])
      && t == s.(slots := t.slots, heap := t.heap)
  {
  }

  lemma AddToSets(heap: map<Ref, Buffer>, r: Ref, c: Chunk)
    ensures r in heap ==> BufferSet(heap, AddTo(heap, r, c), r, Accept(heap[r].live, c, heap[r].maxBytes))
  {
  }

  // ---------- runs ----------

  /** Every step of the run is enabled when it is taken. */
  ghost predicate Allowed(sys: System, steps: seq<Step>) {
    steps == [] ||
    (Allowed(sys, steps[..|steps| - 1]) && Enabled(Run(sys, steps[..|steps| - 1]), steps[|steps| - 1]))
  }

  ghost function Run(sys: System, steps: seq<Step>): System {
    if steps == [] then sys
    else
      var before := Run(sys, steps[..|steps| - 1]);
      if Enabled(before, steps[|steps| - 1]) then Do(before, steps[|steps| - 1]) else before
  }

  /** A store just made, with its positive limits. */
  predicate Starts(sys: System) {
    && sys.store.slots == map[] && sys.store.heap == map[] && sys.store.next == 0
    && sys.store.maxSlots > 0 && sys.store.slotMaxBytes > 0 && sys.store.ttlSeconds > 0
    && sys.pending == map[] && sys.resizing == None && sys.readers == map[]
  }

  /** No source has the empty key. */
  predicate KeysNamed(steps: seq<Step>) {
    forall k :: 0 <= k < |steps| ==> !(steps[k].Open? && steps[k].key == "")
  }

  // ---------- the invariant ----------

  /** The buffers of these slots have the current budget. */
  ghost predicate BudgetedExcept(s: State, remaining: set<Key>) {
    forall k :: k in s.slots && k !in remaining ==>
      s.slots[k].buffer in s.heap && s.heap[s.slots[k].buffer].maxBytes == s.slotMaxBytes
  }

  ghost predicate Resizing(sys: System) {
    match sys.resizing
    case None => Budgeted(sys.store)
    case Some(remaining) => BudgetedExcept(sys.store, remaining) && sys.readers == map[]
  }

  /** A looked-up buffer can never turn up under another key. */
  ghost predicate GapsAreOwned(s: State, pending: map<Thread, Pending>) {
    && (forall t :: t in pending ==> pending[t].buffer in s.heap)
    && (forall t, k :: t in pending && k in s.slots && s.slots[k].buffer == pending[t].buffer ==> k == pending[t].key)
  }

  /** A reader has counted no more than the budget of the slots it has visited. */
  ghost predicate WithinBudget(s: State, r: Reader) {
    r.remaining <= s.slots.Keys && r.total <= (|s.slots| - |r.remaining|) * s.slotMaxBytes
  }

  ghost predicate ReadersWithin(s: State, readers: map<Thread, Reader>) {
    forall t :: t in readers ==> WithinBudget(s, readers[t])
  }

  ghost predicate Safe(sys: System) {
    && Sound(sys.store) && Bounded(sys.store)
    && Resizing(sys) && GapsAreOwned(sys.store, sys.pending) && ReadersWithin(sys.store, sys.readers)
  }

  // ---------- every step keeps it ----------

  /** Slots are only removed or touched: the same buffers under the same keys. */
  ghost predicate SameBuffers(s: State, t: State) {
    && t == s.(slots := t.slots) && t.slots.Keys <= s.slots.Keys
    && forall k :: k in t.slots ==> t.slots[k].buffer == s.slots[k].buffer
  }

  lemma SameBuffersKeep(s: State, t: State, pending: map<Thread, Pending>)
    requires SameBuffers(s, t) && Sound(s) && Bounded(s) && Budgeted(s) && GapsAreOwned(s, pending)
    ensures Sound(t) && Bounded(t) && Budgeted(t) && GapsAreOwned(t, pending)
  {
    SubsetIsSmaller(t.slots.Keys, s.slots.Keys);
  }

  lemma OpenKeeps(sys: System, key: Key, now: Time, order: seq<Key>)
    requires Safe(sys) && Unlocked(sys) && Walks(order, sys.store.slots) && key != ""
    ensures Safe(sys.(store := OpenSlot(sys.store, key, now, order)))
  {
    var s, t := sys.store, OpenSlot(sys.store, key, now, order);
    OpenSlotKeeps(s, key, now, order);
    if key in s.slots {
      assert SameBuffers(s, t);
      SameBuffersKeep(s, t, sys.pending);
    } else {
      OpenSlotGaps(s, key, now, order, sys.pending);
    }
  }

  lemma OpenSlotGaps(s: State, key: Key, now: Time, order: seq<Key>, pending: map<Thread, Pending>)
    requires Walks(order, s.slots) && key !in s.slots && Sound(s) && GapsAreOwned(s, pending)
    ensures GapsAreOwned(OpenSlot(s, key, now, order), pending)
  {
  }

  lemma OpenSlotFresh(s: State, key: Key, now: Time, order: seq<Key>)
    requires key !in s.slots && Sound(s)
    ensures var t := OpenSlot(s, key, now, order);
      && key in t.slots && t.slots[key].buffer !in s.heap
      && (forall r :: r in s.heap ==> r in t.heap)
  {
  }

  lemma EmptyKeeps(sys: System, key: Key, now: Time)
    requires Safe(sys) && Unlocked(sys)
    ensures Safe(sys.(store := EmptySlot(sys.store, key, now)))
  {
    var s := sys.store;
    if key in s.slots {
      var r := s.slots[key].buffer;
      var u := s.(heap := s.heap[r := s.heap[r].(live := [])]);
      assert Sound(u) && Budgeted(u) && GapsAreOwned(u, sys.pending);
      SameBuffersKeep(u, Touch(u, key, now), sys.pending);
    }
  }

  /** An append keeps everything, whatever the lock is held for. */
  lemma AppendKeeps(sys: System, thread: Thread, now: Time)
    requires Safe(sys) && thread in sys.pending
    ensures Safe(DoAppend(sys, thread, now))
  {
    var p, s := sys.pending[thread], sys.store;
    var t := s.(heap := AddTo(s.heap, p.buffer, Chunk(now, p.bytes)));
    AddToKeeps(s, p.buffer, Chunk(now, p.bytes));
    AppendKeepsRest(s, t, sys);
  }

  /** Whatever leaves slots and budgets alone keeps what is known of resizing, gaps and readers. */
  lemma AppendKeepsRest(s: State, t: State, sys: System)
    requires t == s.(heap := t.heap) && t.heap.Keys == s.heap.Keys
    requires forall r :: r in s.heap ==> t.heap[r].maxBytes == s.heap[r].maxBytes
    requires sys.store == s && Resizing(sys) && GapsAreOwned(s, sys.pending) && ReadersWithin(s, sys.readers)
    ensures Resizing(sys.(store := t)) && GapsAreOwned(t, sys.pending) && ReadersWithin(t, sys.readers)
  {
    assert forall th :: th in sys.readers ==> WithinBudget(s, sys.readers[th]);
  }

  lemma ReconfigureKeeps(sys: System, limited: State, orders: seq<seq<Key>>)
    requires Safe(sys) && Unlocked(sys)
    requires limited == sys.store.(
               maxSlots := limited.maxSlots, slotMaxBytes := limited.slotMaxBytes, ttlSeconds := limited.ttlSeconds)
    requires limited.maxSlots > 0 && limited.slotMaxBytes > 0 && limited.ttlSeconds > 0
    requires WalksDown(limited, orders) && RunsOut(limited, orders)
    ensures var evicted := EvictDown(limited, orders);
      Safe(sys.(store := evicted, resizing := Some(evicted.slots.Keys)))
  {
    EvictDownKeeps(limited, orders);
    OnlyEvictsKeeps(limited, EvictDown(limited, orders));
  }

  lemma ResizeNextKeeps(sys: System, key: Key)
    requires Safe(sys) && Enabled(sys, ResizeNext(key))
    ensures Safe(Do(sys, ResizeNext(key)))
  {
    ResizeOneKeeps(sys.store, sys.store.slots[key].buffer);
  }

  lemma ReadNextKeeps(s: State, r: Reader, key: Key)
    requires Sound(s) && Budgeted(s) && WithinBudget(s, r) && key in r.remaining
    ensures WithinBudget(s, Reader(r.remaining - {key}, r.total + SizeAt(s, key)))
  {
    assert SizeAt(s, key) <= s.slotMaxBytes;
    assert |r.remaining - {key}| == |r.remaining| - 1;
    SubsetIsSmaller(r.remaining, s.slots.Keys);
    OneMore(|s.slots| - |r.remaining|, s.slotMaxBytes);
  }

  lemma FindKeeps(sys: System, thread: Thread, key: Key, bytes: Bytes)
    requires Safe(sys) && key in sys.store.slots
    ensures Safe(sys.(pending := sys.pending[thread := Pending(key, sys.store.slots[key].buffer, bytes)]))
  {
  }

  lemma BeginStatsKeeps(sys: System, thread: Thread)
    requires Safe(sys) && sys.resizing == None
    ensures Safe(sys.(readers := sys.readers[thread := Reader(sys.store.slots.Keys, 0)]))
  {
  }

  lemma LockedStepKeeps(sys: System, step: Step)
    requires Safe(sys) && Unlocked(sys) && Enabled(sys, step)
    requires step.Remove? || step.RemoveAll? || step.Bump? || step.Expire?
    ensures Safe(Do(sys, step))
  {
    SameBuffersKeep(sys.store, Do(sys, step).store, sys.pending);
  }

  lemma StepKeeps(sys: System, step: Step)
    requires Safe(sys) && Enabled(sys, step) && !(step.Open? && step.key == "")
    ensures Safe(Do(sys, step))
  {
    match step
    case Open(key, now, order) => OpenKeeps(sys, key, now, order);
    case Empty(key, now) => EmptyKeeps(sys, key, now);
    case Find(thread, key, bytes) =>
      if key in sys.store.slots {
        FindKeeps(sys, thread, key, bytes);
      }
    case Append(thread, now) => AppendKeeps(sys, thread, now);
    case BeginReconfigure(maxSlots, slotMaxBytes, ttlSeconds, orders) =>
      ReconfigureKeeps(sys, SetLimits(sys.store, maxSlots, slotMaxBytes, ttlSeconds), orders);
    case ResizeNext(key) => ResizeNextKeeps(sys, key);
    case BeginStats(thread) => BeginStatsKeeps(sys, thread);
    case ReadNext(thread, key) => ReadNextKeeps(sys.store, sys.readers[thread], key);
    case EndReconfigure =>
    case EndStats(thread) =>
    case Remove(_) => LockedStepKeeps(sys, step);
    case RemoveAll => LockedStepKeeps(sys, step);
    case Bump(_, _) => LockedStepKeeps(sys, step);
    case Expire(_) => LockedStepKeeps(sys, step);
  }

  lemma {:induction false} RunKeeps(sys: System, steps: seq<Step>)
    requires Starts(sys) && Allowed(sys, steps) && KeysNamed(steps)
    ensures Safe(Run(sys, steps))
  {
    if steps != [] {
      var front := steps[..|steps| - 1];
      assert forall k :: 0 <= k < |front| ==> front[k] == steps[k];
      RunKeeps(sys, front);
      StepKeeps(Run(sys, front), steps[|steps| - 1]);
    }
  }

  // ---------- what follows for every interleaving ----------

  /**
   However the critical sections interleave, there are never more slots than the limit; and unless a
   reconfiguration is under way every slot's buffer has the current budget, and all slots together stay
   within the limits.
   */
  lemma MemoryIsBounded(sys: System, steps: seq<Step>, order: seq<Key>)
    requires Starts(sys) && Allowed(sys, steps) && KeysNamed(steps)
    ensures var s := Run(sys, steps).store;
      && |s.slots| <= s.maxSlots
      && (Run(sys, steps).resizing == None ==>
            (forall k :: k in s.slots ==>
              s.slots[k].buffer in s.heap && s.heap[s.slots[k].buffer].maxBytes == s.slotMaxBytes)
            && (Distinct(order) && Walks(order, s.slots) ==> TotalOf(s, order) <= s.maxSlots * s.slotMaxBytes))
  {
    RunKeeps(sys, steps);
    var s := Run(sys, steps).store;
    if Run(sys, steps).resizing == None && Distinct(order) && Walks(order, s.slots) {
      MemoryBound(s, order);
    }
  }

  /** Statistics never report more than the budget, though appends go on while they are added up. */
  lemma StatsAreWithinBudget(sys: System, steps: seq<Step>, thread: Thread)
    requires Starts(sys) && Allowed(sys, steps) && KeysNamed(steps)
    requires Enabled(Run(sys, steps), EndStats(thread))
    ensures var now := Run(sys, steps); now.readers[thread].total <= now.store.maxSlots * now.store.slotMaxBytes
  {
    RunKeeps(sys, steps);
    var now := Run(sys, steps);
    AllVisited(now.store, now.readers[thread]);
  }

  lemma AllVisited(s: State, r: Reader)
    requires s.slotMaxBytes > 0 && Bounded(s) && WithinBudget(s, r) && r.remaining == {}
    ensures r.total <= s.maxSlots * s.slotMaxBytes
  {
  }

  function LiveAt(s: State, r: Ref): seq<Chunk> {
    if r in s.heap then s.heap[r].live else []
  }

  function BudgetAt(s: State, r: Ref): int {
    if r in s.heap then s.heap[r].maxBytes else 0
  }

  /** What the slots hold. */
  function View(s: State): map<Key, seq<Chunk>> {
    map k | k in s.slots :: LiveAt(s, s.slots[k].buffer)
  }

  /**
   The gap is harmless: the late append shows exactly as if it happened at once now, if the key still
   names the buffer looked up; otherwise it changes no slot at all, not even one reopened under that key.
   */
  lemma LateAppend(sys: System, steps: seq<Step>, thread: Thread, now: Time)
    requires Starts(sys) && Allowed(sys, steps) && KeysNamed(steps)
    requires Enabled(Run(sys, steps), Append(thread, now))
    ensures var s, p := Run(sys, steps).store, Run(sys, steps).pending[thread];
      var t := Do(Run(sys, steps), Append(thread, now)).store;
      && t == s.(heap := t.heap)
      && View(t) == if p.key in s.slots && s.slots[p.key].buffer == p.buffer
                    then View(s)[p.key := Accept(LiveAt(s, p.buffer), Chunk(now, p.bytes), BudgetAt(s, p.buffer))]
                    else View(s)
  {
    RunKeeps(sys, steps);
    var s, p := Run(sys, steps).store, Run(sys, steps).pending[thread];
    assert GapsAreOwned(s, Run(sys, steps).pending);
    AppendShows(s, p.key, p.buffer, Chunk(now, p.bytes));
  }

  lemma AppendShows(s: State, key: Key, r: Ref, c: Chunk)
    requires r in s.heap && forall k :: k in s.slots && s.slots[k].buffer == r ==> k == key
    ensures View(s.(heap := AddTo(s.heap, r, c))) ==
              if key in s.slots && s.slots[key].buffer == r
              then View(s)[key := Accept(LiveAt(s, r), c, BudgetAt(s, r))] else View(s)
  {
  }

  /** A buffer that has left the store never comes back: appends to it stay invisible for good. */
  lemma {:induction false} DetachedForGood(sys: System, steps: seq<Step>, r: Ref)
    requires Safe(sys) && Allowed(sys, steps) && KeysNamed(steps)
    requires r in sys.store.heap && forall k :: k in sys.store.slots ==> sys.store.slots[k].buffer != r
    ensures var t := Run(sys, steps).store;
      Safe(Run(sys, steps)) && r in t.heap && forall k :: k in t.slots ==> t.slots[k].buffer != r
  {
    if steps != [] {
      var front, step := steps[..|steps| - 1], steps[|steps| - 1];
      assert forall k :: 0 <= k < |front| ==> front[k] == steps[k];
      DetachedForGood(sys, front, r);
      StepKeeps(Run(sys, front), step);
      StaysDetached(Run(sys, front), step, r);
    }
  }

  lemma StaysDetached(sys: System, step: Step, r: Ref)
    requires Safe(sys) && Enabled(sys, step)
    requires r in sys.store.heap && forall k :: k in sys.store.slots ==> sys.store.slots[k].buffer != r
    ensures var t := Do(sys, step).store; r in t.heap && forall k :: k in t.slots ==> t.slots[k].buffer != r
  {
    StaysInHeap(sys, step, r);
    match step
    case Open(key, now, order) =>
      if key !in sys.store.slots {
        OpenSlotFresh(sys.store, key, now, order);
      }
      forall k | k in OpenSlot(sys.store, key, now, order).slots && k != key
        ensures k in sys.store.slots && OpenSlot(sys.store, key, now, order).slots[k] == sys.store.slots[k]
      {
        OpenSlotFrame(sys.store, key, now, order, k);
      }
    case BeginReconfigure(maxSlots, slotMaxBytes, ttlSeconds, orders) =>
      EvictDownOnlyEvicts(SetLimits(sys.store, maxSlots, slotMaxBytes, ttlSeconds), orders);
    case _ =>
  }

  lemma StaysInHeap(sys: System, step: Step, r: Ref)
    requires Enabled(sys, step) && r in sys.store.heap
    ensures r in Do(sys, step).store.heap
  {
    match step
    case BeginReconfigure(maxSlots, slotMaxBytes, ttlSeconds, orders) =>
      EvictDownOnlyEvicts(SetLimits(sys.store, maxSlots, slotMaxBytes, ttlSeconds), orders);
    case _ =>
  }
}
