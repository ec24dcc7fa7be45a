/**
 Conservation of instrumentations: whatever happens, each instrumentation whose `Load` succeeded is
 either owned by exactly one tracked process or has been closed exactly once. The one exception is a
 panic, which closes an instrumentation and leaves it owned; the deferred shutdown then closes it again.
 */
module InstrumentationConservation {
  import opened Wrappers
  import opened InstrumentationModel

  function Loads(log: seq<Entry>, i: Inst): nat { multiset(log)[Loaded(i)] }

  function Closes(log: seq<Entry>, i: Inst): nat { multiset(log)[Closed(i)] }

  predicate Holds(s: State, pid: Pid, i: Inst) {
    pid in s.byPid && i in s.byPid[pid].Insts()
  }

  /** The instrumentation a panic closed and left in the table. */
  predicate ClosedByPanic(s: State, pid: Pid, i: Inst) {
    s.panicked == Some(pid) && pid in s.byPid && s.byPid[pid].distroInst == Some(i)
  }

  ghost predicate Conserved(s: State) {
    && (forall p :: p in s.byPid ==> Distinct(s.byPid[p].Insts()))
    && (forall p, q, i :: Holds(s, p, i) && Holds(s, q, i) ==> p == q)
    && (forall i :: Loads(s.log, i) <= 1 && (Loads(s.log, i) == 1 ==> i < s.next))
    && (forall p, i :: Holds(s, p, i) ==>
          Loads(s.log, i) == 1 && Closes(s.log, i) == if ClosedByPanic(s, p, i) then 1 else 0)
    && (forall i :: (forall p :: !Holds(s, p, i)) ==> Closes(s.log, i) == Loads(s.log, i))
  }

  // ---------- counting in log tails ----------

  lemma {:induction false} CountInDistinct<T>(s: seq<T>, x: T)
    requires Distinct(s)
    ensures multiset(s)[x] == if x in s then 1 else 0
  {
    if s != [] {
      var front := s[..|s| - 1];
      assert s == front + [s[|s| - 1]];
      CountInDistinct(front, x);
    }
  }

  lemma {:induction false} LoadedTailCounts(insts: seq<Inst>, i: Inst)
    ensures Loads(LoadedTail(insts), i) == multiset(insts)[i]
    ensures Closes(LoadedTail(insts), i) == 0
  {
    if insts != [] {
      assert insts == insts[..|insts| - 1] + [insts[|insts| - 1]];
      LoadedTailCounts(insts[..|insts| - 1], i);
    }
  }

  lemma {:induction false} ClosedTailCounts(insts: seq<Inst>, i: Inst)
    ensures Closes(ClosedTail(insts), i) == multiset(insts)[i]
    ensures Loads(ClosedTail(insts), i) == 0
  {
    if insts != [] {
      assert insts == insts[..|insts| - 1] + [insts[|insts| - 1]];
      ClosedTailCounts(insts[..|insts| - 1], i);
    }
  }

  lemma {:induction false} AppliedTailCounts(insts: seq<Inst>, config: Config, i: Inst)
    ensures Loads(AppliedTail(insts, config), i) == 0 && Closes(AppliedTail(insts, config), i) == 0
  {
    if insts != [] {
      AppliedTailCounts(insts[..|insts| - 1], config, i);
    }
  }

  lemma {:induction false} ApplyCounts(table: Table, order: seq<Pid>, config: Config, i: Inst)
    requires forall p :: p in order ==> p in table
    ensures Loads(ApplyInOrder(table, order, config), i) == 0 && Closes(ApplyInOrder(table, order, config), i) == 0
  {
    if order != [] {
      var last := order[|order| - 1];
      assert last in order;
      ApplyCounts(table, order[..|order| - 1], config, i);
      AppliedTailCounts(table[last].Insts(), config, i);
    }
  }

  /** Generic factories hand out fresh instrumentations, all different. */
  lemma {:induction false} GenericsAreFresh(outcomes: seq<Outcome>, next: Inst)
    ensures var (insts, n) := LoadGenerics(outcomes, next);
      next <= n && Distinct(insts) && forall i :: i in insts ==> next <= i < n
  {
    if outcomes != [] {
      GenericsAreFresh(outcomes[..|outcomes| - 1], next);
      var insts := LoadGenerics(outcomes[..|outcomes| - 1], next).0;
      assert forall k :: 0 <= k < |insts| ==> insts[k] in insts;
    }
  }

  // ---------- how the table may change ----------

  /** Between the two logs exactly the `added` instrumentations were loaded, once each, and none was closed. */
  ghost predicate OnlyLoads(before: seq<Entry>, after: seq<Entry>, added: set<Inst>) {
    forall i ::
      Loads(after, i) == Loads(before, i) + (if i in added then 1 else 0) && Closes(after, i) == Closes(before, i)
  }

  /** The record owns what the process owned and what was added. */
  ghost predicate Owns(s: State, pid: Pid, d: Details, added: set<Inst>) {
    Distinct(d.Insts()) && forall i :: i in d.Insts() <==> i in added || Holds(s, pid, i)
  }

  /** A record takes over what the pid owned and adds fresh, just loaded instrumentations. */
  lemma Attached(s: State, t: State, pid: Pid, d: Details, added: set<Inst>)
    requires Conserved(s) && s.panicked.None? && t.panicked.None?
    requires t.byPid == s.byPid[pid := d] && s.next <= t.next
    requires Owns(s, pid, d, added) && OnlyLoads(s.log, t.log, added)
    requires forall i :: i in added ==> s.next <= i < t.next
    ensures Conserved(t)
  {
    forall p, i | Holds(t, p, i) ensures Loads(t.log, i) == 1 && Closes(t.log, i) == 0 {
      if i in added {
        assert forall q :: !Holds(s, q, i);
      } else {
        assert Holds(s, p, i);
      }
    }
    forall p, q, i | Holds(t, p, i) && Holds(t, q, i) ensures p == q {
      if i in added {
        assert !Holds(s, p, i) && !Holds(s, q, i);
        assert p == pid && q == pid;
      } else {
        assert Holds(s, p, i) && Holds(s, q, i);
      }
    }
    forall i | forall p :: !Holds(t, p, i) ensures Closes(t.log, i) == Loads(t.log, i) {
      assert !Holds(t, pid, i);
      assert forall p :: Holds(s, p, i) ==> Holds(t, p, i);
    }
  }

  /** A record leaves the table and exactly its instrumentations are closed. */
  lemma Detached(s: State, t: State, pid: Pid)
    requires Conserved(s) && s.panicked.None? && t.panicked.None?
    requires pid in s.byPid && t.byPid == s.byPid - {pid} && s.next <= t.next
    requires forall i :: Loads(t.log, i) == Loads(s.log, i)
    requires forall i :: Closes(t.log, i) == Closes(s.log, i) + if Holds(s, pid, i) then 1 else 0
    ensures Conserved(t)
  {
    forall p, i | Holds(t, p, i) ensures Loads(t.log, i) == 1 && Closes(t.log, i) == 0 {
      assert Holds(s, p, i) && !Holds(s, pid, i);
    }
    forall p, q, i | Holds(t, p, i) && Holds(t, q, i) ensures p == q {
      assert Holds(s, p, i) && Holds(s, q, i);
    }
    forall i | forall p :: !Holds(t, p, i) ensures Closes(t.log, i) == Loads(t.log, i) {
      if !Holds(s, pid, i) {
        assert forall p :: Holds(s, p, i) ==> Holds(t, p, i);
      }
    }
  }

  /** Nothing that matters here changed. */
  lemma Untouched(s: State, t: State)
    requires Conserved(s) && s.panicked == t.panicked
    requires t.byPid == s.byPid && s.next <= t.next
    requires forall i :: Loads(t.log, i) == Loads(s.log, i) && Closes(t.log, i) == Closes(s.log, i)
    ensures Conserved(t)
  {
    assert forall p, i :: Holds(t, p, i) <==> Holds(s, p, i);
  }

  // ---------- the operations ----------

  /** A panic closes the distribution's instrumentation and leaves its record in the table. */
  lemma PanicConserves(s: State, pid: Pid)
    requires Conserved(s) && s.panicked.None?
    requires pid in s.byPid && s.byPid[pid].distroInst.Some?
    ensures Conserved(Clean(s, pid, None))
  {
    var i0 := s.byPid[pid].distroInst.value;
    var t := Clean(s, pid, None);
    assert s.byPid[pid].Insts()[0] == i0;
    assert Holds(s, pid, i0);
    assert forall p, i :: Holds(t, p, i) <==> Holds(s, p, i);
    assert forall i :: Loads(t.log, i) == Loads(s.log, i);
    assert forall i :: Closes(t.log, i) == Closes(s.log, i) + if i == i0 then 1 else 0;
    forall p, i | Holds(t, p, i)
      ensures Loads(t.log, i) == 1 && Closes(t.log, i) == if ClosedByPanic(t, p, i) then 1 else 0
    {
      assert Holds(s, p, i);
    }
  }

  /** What cleaning a process closes: its instrumentations, once each. */
  lemma CleanCounts(s: State, pid: Pid, lookup: Option<Distro>, i: Inst)
    requires pid in s.byPid && Distinct(s.byPid[pid].Insts())
    requires s.byPid[pid].distroInst.Some? ==> lookup.Some?
    ensures Loads(Clean(s, pid, lookup).log, i) == Loads(s.log, i)
    ensures Closes(Clean(s, pid, lookup).log, i) == Closes(s.log, i) + if Holds(s, pid, i) then 1 else 0
  {
    var d := s.byPid[pid];
    CleanTailCounts(pid, d, lookup, i);
    assert Clean(s, pid, lookup).log == (s.log + CleanTail(pid, d, lookup)) + [Untracked(pid)];
  }

  lemma HeadCounts(pid: Pid, inst: Inst, distro: Distro, i: Inst)
    ensures Loads([Closed(inst), Down(pid, inst, distro)], i) == 0
    ensures Closes([Closed(inst), Down(pid, inst, distro)], i) == if inst == i then 1 else 0
  {
  }

  lemma CleanTailCounts(pid: Pid, d: Details, lookup: Option<Distro>, i: Inst)
    requires Distinct(d.Insts()) && (d.distroInst.Some? ==> lookup.Some?)
    ensures Loads(CleanTail(pid, d, lookup), i) == 0
    ensures Closes(CleanTail(pid, d, lookup), i) == if i in d.Insts() then 1 else 0
  {
    RestCounts(d.genericInsts, pid, i);
    InstsCount(d, i);
    var rest := ClosedTail(d.genericInsts) + [Exit(pid)];
    if d.distroInst.Some? {
      var head := [Closed(d.distroInst.value), Down(pid, d.distroInst.value, lookup.value)];
      HeadCounts(pid, d.distroInst.value, lookup.value, i);
      assert CleanTail(pid, d, lookup) == head + rest by {
        Regroup(head, ClosedTail(d.genericInsts), [Exit(pid)], []);
      }
    } else {
      assert CleanTail(pid, d, lookup) == rest by {
        Regroup([], ClosedTail(d.genericInsts), [Exit(pid)], []);
      }
    }
  }

  lemma RestCounts(insts: seq<Inst>, pid: Pid, i: Inst)
    ensures var rest := ClosedTail(insts) + [Exit(pid)]; Loads(rest, i) == 0 && Closes(rest, i) == multiset(insts)[i]
  {
    ClosedTailCounts(insts, i);
  }

  lemma InstsCount(d: Details, i: Inst)
    requires Distinct(d.Insts())
    ensures (if d.distroInst == Some(i) then 1 else 0) + multiset(d.genericInsts)[i] == if i in d.Insts() then 1 else 0
  {
    CountInDistinct(d.Insts(), i);
    assert multiset(d.Insts())[i] == (if d.distroInst == Some(i) then 1 else 0) + multiset(d.genericInsts)[i];
  }

  lemma CleanConserves(s: State, pid: Pid, lookup: Option<Distro>)
    requires Conserved(s) && s.panicked.None?
    ensures Conserved(Clean(s, pid, lookup))
  {
    if pid in s.byPid {
      if s.byPid[pid].distroInst.Some? && lookup.None? {
        PanicConserves(s, pid);
      } else {
        forall i
          ensures Loads(Clean(s, pid, lookup).log, i) == Loads(s.log, i)
          ensures Closes(Clean(s, pid, lookup).log, i) == Closes(s.log, i) + if Holds(s, pid, i) then 1 else 0
        {
          CleanCounts(s, pid, lookup, i);
        }
        Detached(s, Clean(s, pid, lookup), pid);
      }
    }
  }

  lemma AttachDistroConserves(
      s: State, s1: State, pid: Pid, d: Details, distro: Distro, outcome: Outcome, loaded: set<Inst>)
    requires Conserved(s) && s.panicked.None? && s1.panicked.None?
    requires s1.byPid == s.byPid && s.next <= s1.next
    requires pid in s.byPid ==> s.byPid[pid].distroInst.None?
    requires d.distroInst.None? && Owns(s, pid, d, loaded) && OnlyLoads(s.log, s1.log, loaded)
    requires forall i :: i in loaded ==> s.next <= i < s1.next
    ensures Conserved(AttachDistro(s1, pid, d, distro, outcome).0)
  {
    AttachDistroTable(s1, pid, d, distro, outcome);
    AttachDistroTotals(s, s1, pid, d, distro, outcome, loaded);
    AddedAreFresh(s, s1, pid, d, outcome, loaded);
    Attached(s, AttachDistro(s1, pid, d, distro, outcome).0, pid, WithOwn(s1, d, outcome), Added(s1, outcome, loaded));
  }

  /** The record once its own instrumentation has been attempted. */
  function WithOwn(s: State, d: Details, outcome: Outcome): Details {
    d.(distroInst := if outcome.Loads? then Some(s.next) else None)
  }

  /** What has loaded altogether. */
  function Added(s: State, outcome: Outcome, loaded: set<Inst>): set<Inst> {
    if outcome.Loads? then loaded + {s.next} else loaded
  }

  /** The record owns what it owned, what had loaded, and what loads now, all different. */
  lemma AddedAreFresh(s: State, s1: State, pid: Pid, d: Details, outcome: Outcome, loaded: set<Inst>)
    requires Conserved(s) && s.next <= s1.next && d.distroInst.None? && Owns(s, pid, d, loaded)
    requires forall i :: i in loaded ==> s.next <= i < s1.next
    ensures Owns(s, pid, WithOwn(s1, d, outcome), Added(s1, outcome, loaded))
  {
    assert d.Insts() == d.genericInsts;
    forall i | i in d.genericInsts ensures i < s1.next {
      assert i in loaded || Holds(s, pid, i);
    }
    InstsWith(d, WithOwn(s1, d, outcome).distroInst);
  }

  lemma AttachDistroTotals(
      s: State, s1: State, pid: Pid, d: Details, distro: Distro, outcome: Outcome, loaded: set<Inst>)
    requires OnlyLoads(s.log, s1.log, loaded) && s1.next !in loaded
    ensures OnlyLoads(s.log, AttachDistro(s1, pid, d, distro, outcome).0.log, Added(s1, outcome, loaded))
  {
    var t := AttachDistro(s1, pid, d, distro, outcome).0;
    forall i
      ensures Loads(t.log, i) == Loads(s.log, i) + (if i in Added(s1, outcome, loaded) then 1 else 0)
      ensures Closes(t.log, i) == Closes(s.log, i)
    {
      AttachDistroCounts(s1, pid, d, distro, outcome, i);
    }
  }

  lemma InstsWith(d: Details, inst: Option<Inst>)
    requires Distinct(d.genericInsts) && (inst.Some? ==> inst.value !in d.genericInsts)
    ensures Distinct(d.(distroInst := inst).Insts())
    ensures forall i :: i in d.(distroInst := inst).Insts() <==> i in d.genericInsts || inst == Some(i)
  {
  }

  lemma AttachDistroTable(s: State, pid: Pid, d: Details, distro: Distro, outcome: Outcome)
    ensures var t := AttachDistro(s, pid, d, distro, outcome).0;
      && t.byPid == s.byPid[pid := WithOwn(s, d, outcome)]
      && t.next == s.next + (if outcome.LoadFailed? || outcome.Loads? then 1 else 0)
      && t.panicked == s.panicked
  {
  }

  lemma AttachDistroCounts(s: State, pid: Pid, d: Details, distro: Distro, outcome: Outcome, i: Inst)
    ensures var t := AttachDistro(s, pid, d, distro, outcome).0;
      && Loads(t.log, i) == Loads(s.log, i) + (if outcome.Loads? && i == s.next then 1 else 0)
      && Closes(t.log, i) == Closes(s.log, i)
  {
    var created := outcome.LoadFailed? || outcome.Loads?;
    var s1 := s.(next := if created then s.next + 1 else s.next, log := s.log + Reports(pid, s.next, outcome));
    var d' := d.(distroInst := if outcome.Loads? then Some(s.next) else None);
    assert AttachDistro(s, pid, d, distro, outcome).0 == StartTrack(s1, pid, d', Some(distro));
    StartTrackCounts(s1, pid, d', Some(distro), i);
    AppendReportsCounts(s.log, pid, s.next, outcome, i);
  }

  lemma AppendReportsCounts(log: seq<Entry>, pid: Pid, inst: Inst, outcome: Outcome, i: Inst)
    ensures Loads(log + Reports(pid, inst, outcome), i) == Loads(log, i) + if outcome.Loads? && i == inst then 1 else 0
    ensures Closes(log + Reports(pid, inst, outcome), i) == Closes(log, i)
  {
    ReportsCounts(pid, inst, outcome, i);
  }

  lemma StartTrackCounts(s: State, pid: Pid, d: Details, distribution: Option<Distro>, i: Inst)
    ensures Loads(StartTrack(s, pid, d, distribution).log, i) == Loads(s.log, i)
    ensures Closes(StartTrack(s, pid, d, distribution).log, i) == Closes(s.log, i)
  {
  }

  lemma ReportsCounts(pid: Pid, inst: Inst, outcome: Outcome, i: Inst)
    ensures Loads(Reports(pid, inst, outcome), i) == if outcome.Loads? && i == inst then 1 else 0
    ensures Closes(Reports(pid, inst, outcome), i) == 0
  {
  }

  lemma AttachGenericsCounts(s: State, pid: Pid, outcomes: seq<Outcome>, loaded: set<Inst>)
    requires loaded == if pid in s.byPid then {} else Elements(AttachGenerics(s, pid, outcomes).1)
    ensures OnlyLoads(s.log, AttachGenerics(s, pid, outcomes).0.log, loaded)
  {
    if pid !in s.byPid {
      var insts := LoadGenerics(outcomes, s.next).0;
      GenericsAreFresh(outcomes, s.next);
      forall i
        ensures Loads(LoadedTail(insts), i) == if i in loaded then 1 else 0
        ensures Closes(LoadedTail(insts), i) == 0
      {
        LoadedTailCounts(insts, i);
        CountInDistinct(insts, i);
      }
    }
  }

  /** The generic instrumentations of a record are those it had, or those that load now. */
  lemma GenericsAreOwned(s: State, pid: Pid, outcomes: seq<Outcome>, d: Details, loaded: set<Inst>)
    requires Conserved(s) && (pid in s.byPid ==> s.byPid[pid].distroInst.None?)
    requires d.distroInst.None? && d.genericInsts == AttachGenerics(s, pid, outcomes).1
    requires loaded == if pid in s.byPid then {} else Elements(d.genericInsts)
    ensures var s1 := AttachGenerics(s, pid, outcomes).0;
      && s1.byPid == s.byPid && s1.panicked == s.panicked && s.next <= s1.next
      && Owns(s, pid, d, loaded) && forall i :: i in loaded ==> s.next <= i < s1.next
  {
    GenericsAreFresh(outcomes, s.next);
    assert d.Insts() == d.genericInsts;
    assert pid in s.byPid ==> s.byPid[pid].Insts() == d.genericInsts;
  }

  lemma GenericsOnlyConserve(s: State, s1: State, pid: Pid, d: Details, loaded: set<Inst>)
    requires Conserved(s) && s.panicked.None? && s1.panicked.None? && s1.byPid == s.byPid && s.next <= s1.next
    requires d.distroInst.None? && Owns(s, pid, d, loaded) && OnlyLoads(s.log, s1.log, loaded)
    requires forall i :: i in loaded ==> s.next <= i < s1.next
    ensures Conserved(StartTrack(s1, pid, d, None))
    ensures d.genericInsts == [] ==> Conserved(s1)
  {
    Attached(s, StartTrack(s1, pid, d, None), pid, d, loaded);
    if d.genericInsts == [] {
      assert forall i :: i in loaded ==> i in d.Insts();
      Untouched(s, s1);
    }
  }

  lemma TryInstrumentConserves(f: Factories, s: State, pid: Pid, pd: ProcessDetails, a: Answers)
    requires Conserved(s) && s.panicked.None?
    ensures Conserved(TryInstrument(f, s, pid, pd, a).0)
  {
    if !IsInstrumented(f, s, pid, a.tracked) && a.distribution.Some? && a.configGroup.Some? && a.processGroup.Some? {
      var hasFactory := a.distribution.value.name in f.distros;
      if hasFactory || f.generics != 0 {
        var (s1, generics) := AttachGenerics(s, pid, a.generics);
        var d := Details(None, generics, pd, a.configGroup.value, a.processGroup.value);
        var loaded := if pid in s.byPid then {} else Elements(generics);
        GenericsAreOwned(s, pid, a.generics, d, loaded);
        AttachGenericsCounts(s, pid, a.generics, loaded);
        if hasFactory {
          AttachDistroConserves(s, s1, pid, d, a.distribution.value, a.distro, loaded);
        } else {
          GenericsOnlyConserve(s, s1, pid, d, loaded);
        }
      }
    }
  }

  lemma StepConserves(f: Factories, s: State, op: Op)
    requires Conserved(s)
    ensures Conserved(Step(f, s, op))
  {
    if s.panicked.None? {
      match op
      case Attempt(pid, pd, a) => TryInstrumentConserves(f, s, pid, pd, a);
      case Guarded(pid, pd, precheck, a) => TryInstrumentConserves(f, s, pid, pd, a);
      case Cleanup(pid, lookup) => CleanConserves(s, pid, lookup);
      case Configure(cg, config, order) =>
        if forall p :: p in order ==> p in Inner(s.byConfig, cg) {
          ConfigureConserves(s, Inner(s.byConfig, cg), order, config);
        }
    }
  }

  lemma ConfigureConserves(s: State, table: Table, order: seq<Pid>, config: Config)
    requires Conserved(s) && forall p :: p in order ==> p in table
    ensures Conserved(s.(log := s.log + ApplyInOrder(table, order, config)))
  {
    var t := s.(log := s.log + ApplyInOrder(table, order, config));
    forall i ensures Loads(t.log, i) == Loads(s.log, i) && Closes(t.log, i) == Closes(s.log, i) {
      ApplyCounts(table, order, config, i);
    }
    Untouched(s, t);
  }

  /** Every run keeps every loaded instrumentation owned once or closed once. */
  lemma {:induction false} RunConserves(f: Factories, ops: seq<Op>)
    ensures Conserved(Perform(f, Start, ops))
  {
    if ops != [] {
      RunConserves(f, ops[..|ops| - 1]);
      StepConserves(f, Perform(f, Start, ops[..|ops| - 1]), ops[|ops| - 1]);
    }
  }

  // ---------- shutdown ----------

  /** What a shutdown over `order` closes: the instrumentations of those processes, once each. */
  lemma {:induction false} ShutdownCounts(s: State, order: seq<Pid>, i: Inst)
    requires Conserved(s) && Distinct(order) && forall p :: p in order ==> p in s.byPid
    ensures Loads(CloseInOrder(s.byPid, order), i) == 0
    ensures Closes(CloseInOrder(s.byPid, order), i) == if exists p :: p in order && Holds(s, p, i) then 1 else 0
  {
    if order != [] {
      var front, last := order[..|order| - 1], order[|order| - 1];
      assert order == front + [last];
      assert last in order && last !in front;
      ShutdownCounts(s, front, i);
      var insts := s.byPid[last].Insts();
      ClosedTailCounts(insts, i);
      CountInDistinct(insts, i);
      assert CloseInOrder(s.byPid, order) == CloseInOrder(s.byPid, front) + (ClosedTail(insts) + [Exit(last)]);
      if Holds(s, last, i) {
        assert forall p :: p in front && Holds(s, p, i) ==> p == last;
      }
    }
  }

  // ---------- what makes a run panic ----------

  /** The k-th step cleans a live process, owning `i`, whose distribution cannot be resolved. */
  predicate Unresolved(f: Factories, ops: seq<Op>, k: nat, pid: Pid, i: Inst) {
    k < |ops| && ops[k] == Cleanup(pid, None) &&
    var s := Perform(f, Start, ops[..k]); pid in s.byPid && s.byPid[pid].distroInst == Some(i)
  }

  ghost predicate FirstUnresolved(f: Factories, ops: seq<Op>, k: nat, pid: Pid, i: Inst) {
    Unresolved(f, ops, k, pid, i) && forall j: nat, p, x :: j < k ==> !Unresolved(f, ops, j, p, x)
  }

  lemma {:induction false} Frozen(f: Factories, ops: seq<Op>, k: nat)
    requires k <= |ops| && Perform(f, Start, ops[..k]).panicked.Some?
    ensures Perform(f, Start, ops) == Perform(f, Start, ops[..k])
    decreases |ops|
  {
    if k == |ops| {
      assert ops[..k] == ops;
    } else {
      var front := ops[..|ops| - 1];
      assert front[..k] == ops[..k];
      Frozen(f, front, k);
    }
  }

  lemma UnresolvedPanics(f: Factories, ops: seq<Op>, k: nat, pid: Pid, i: Inst)
    requires Unresolved(f, ops, k, pid, i)
    ensures Perform(f, Start, ops).panicked.Some?
    ensures Perform(f, Start, ops[..k]).panicked.None? ==>
              var s, t := Perform(f, Start, ops[..k]), Perform(f, Start, ops);
              t.panicked == Some(pid) && t.byPid == s.byPid
  {
    assert ops[..k + 1][..k] == ops[..k];
    Frozen(f, ops, k + 1);
  }

  lemma {:induction false} PanicHasCause(f: Factories, ops: seq<Op>) returns (k: nat, i: Inst)
    requires Perform(f, Start, ops).panicked.Some?
    ensures FirstUnresolved(f, ops, k, Perform(f, Start, ops).panicked.value, i)
    ensures Perform(f, Start, ops).byPid == Perform(f, Start, ops[..k]).byPid
  {
    var front, last := ops[..|ops| - 1], ops[|ops| - 1];
    forall j: nat, p, x | j < |front| ensures Unresolved(f, front, j, p, x) == Unresolved(f, ops, j, p, x) {
      assert front[..j] == ops[..j];
    }
    var s := Perform(f, Start, front);
    if s.panicked.Some? {
      k, i := PanicHasCause(f, front);
      assert front[..k] == ops[..k];
    } else {
      OnlyCleanupPanics(f, s, last);
      k, i := |front|, s.byPid[last.pid].distroInst.value;
      forall j: nat, p, x | j < k ensures !Unresolved(f, front, j, p, x) {
        if Unresolved(f, front, j, p, x) {
          UnresolvedPanics(f, front, j, p, x);
        }
      }
    }
  }

  lemma OnlyCleanupPanics(f: Factories, s: State, op: Op)
    requires s.panicked.None? && Step(f, s, op).panicked.Some?
    ensures op.Cleanup? && op.lookup.None? && op.pid in s.byPid && s.byPid[op.pid].distroInst.Some?
    ensures Step(f, s, op).panicked == Some(op.pid) && Step(f, s, op).byPid == s.byPid
  {
  }

  /** A run panics on a process iff the first cleaning of a live process it cannot resolve is that one's. */
  lemma PanicIff(f: Factories, ops: seq<Op>, pid: Pid)
    ensures Perform(f, Start, ops).panicked == Some(pid) <==> exists k, i :: FirstUnresolved(f, ops, k, pid, i)
  {
    if Perform(f, Start, ops).panicked == Some(pid) {
      var k, i := PanicHasCause(f, ops);
    }
    if k, i :| FirstUnresolved(f, ops, k, pid, i) {
      FirstDecides(f, ops, k, pid, i);
    }
  }

  lemma FirstDecides(f: Factories, ops: seq<Op>, k: nat, pid: Pid, i: Inst)
    requires FirstUnresolved(f, ops, k, pid, i)
    ensures var t := Perform(f, Start, ops);
      t.panicked == Some(pid) && pid in t.byPid && t.byPid[pid].distroInst == Some(i)
  {
    if Perform(f, Start, ops[..k]).panicked.Some? {
      var j, x := PanicHasCause(f, ops[..k]);
      var p := Perform(f, Start, ops[..k]).panicked.value;
      assert ops[..k][..j] == ops[..j];
      assert Unresolved(f, ops, j, p, x);
    }
    UnresolvedPanics(f, ops, k, pid, i);
  }

  /** The instrumentation of the process at which the run panics. */
  ghost predicate Stranded(f: Factories, ops: seq<Op>, i: Inst) {
    exists k, pid :: FirstUnresolved(f, ops, k, pid, i)
  }

  lemma StrandedIsClosedByPanic(f: Factories, ops: seq<Op>, i: Inst)
    ensures Stranded(f, ops, i) <==> exists p :: ClosedByPanic(Perform(f, Start, ops), p, i)
  {
    var s := Perform(f, Start, ops);
    if k, pid :| FirstUnresolved(f, ops, k, pid, i) {
      FirstDecides(f, ops, k, pid, i);
      assert ClosedByPanic(s, pid, i);
    }
    if p :| ClosedByPanic(s, p, i) {
      var k, x := PanicHasCause(f, ops);
      FirstDecides(f, ops, k, p, x);
    }
  }

  /**
   After any run and its shutdown, whatever the order the tables are walked in, every loaded
   instrumentation has been closed exactly once, except that of the first live process that the run
   cleans without being able to resolve its distribution: that one is closed twice.
   */
  lemma ShutdownClosesAll(f: Factories, ops: seq<Op>, order: seq<Pid>, i: Inst)
    requires var s := Perform(f, Start, ops);
      Distinct(order) && forall p :: p in order <==> p in s.byPid
    ensures var s := Perform(f, Start, ops);
      var end := Shutdown(s, order);
      && Loads(end.log, i) == Loads(s.log, i)
      && Closes(end.log, i) == Loads(end.log, i) + if Stranded(f, ops, i) then 1 else 0
  {
    var s := Perform(f, Start, ops);
    RunConserves(f, ops);
    ShutdownCounts(s, order, i);
    StrandedIsClosedByPanic(f, ops, i);
    assert forall q :: ClosedByPanic(s, q, i) ==> s.byPid[q].Insts()[0] == i && Holds(s, q, i);
    if p :| p in order && Holds(s, p, i) {
      assert forall q :: Holds(s, q, i) ==> q == p;
    }
  }

  /**
   The exception is real, in every state with a live process (`OneLoads` reaches one): when its exit finds
   that its distribution cannot be resolved any more, the exit and the shutdown both close it.
   */
  lemma PanicClosesTwice(s: State, pid: Pid, order: seq<Pid>)
    requires Conserved(s) && s.panicked.None? && pid in s.byPid && s.byPid[pid].distroInst.Some?
    requires Distinct(order) && forall p :: p in order <==> p in s.byPid
    ensures Closes(Shutdown(Clean(s, pid, None), order).log, s.byPid[pid].distroInst.value) == 2
  {
    var i, t := s.byPid[pid].distroInst.value, Clean(s, pid, None);
    PanicConserves(s, pid);
    assert t.byPid[pid].Insts()[0] == i;
    assert Holds(t, pid, i) && ClosedByPanic(t, pid, i);
    ShutdownCounts(t, order, i);
  }

  /** Re-tracking a process never overwrites a live instrumentation: only cleaning the process drops it. */
  lemma LiveIsNeverOverwritten(f: Factories, s: State, op: Op, pid: Pid)
    requires pid in s.byPid && s.byPid[pid].distroInst.Some?
    ensures var t := Step(f, s, op).byPid;
      if pid in t then t[pid] == s.byPid[pid] else op.Cleanup? && op.pid == pid
  {
    if !op.Configure? && op.pid != pid && !op.Cleanup? {
      OnlyItsOwnRecord(f, s, op.pid, op.pd, op.answers, pid);
    }
  }

  lemma OnlyItsOwnRecord(f: Factories, s: State, pid: Pid, pd: ProcessDetails, a: Answers, other: Pid)
    requires pid != other
    ensures var t := TryInstrument(f, s, pid, pd, a).0.byPid;
      (other in t <==> other in s.byPid) && (other in t ==> t[other] == s.byPid[other])
  {
  }
}
