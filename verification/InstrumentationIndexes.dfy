/**
 The two group indexes and the operations that go through them. An index agrees with the main table
 as long as a tracked process keeps its groups; going through an index is then the same as scanning
 the main table.
 */
module InstrumentationIndexes {
  import opened Wrappers
  import opened InstrumentationModel
  import opened InstrumentationConservation

  /** `index` groups exactly the records of `table`, by `key`, and keeps no empty group. */
  ghost predicate Indexed(index: map<string, Table>, table: Table, key: Details -> string) {
    && (forall k, p :: k in index && p in index[k] ==> p in table && index[k][p] == table[p] && key(table[p]) == k)
    && (forall p :: p in table ==> key(table[p]) in index && p in index[key(table[p])])
    && (forall k :: k in index ==> index[k] != map[])
  }

  function ConfigKey(d: Details): string { d.cg }

  function ProcessKey(d: Details): string { d.pg }

  ghost predicate Agreement(s: State) {
    Indexed(s.byConfig, s.byPid, ConfigKey) && Indexed(s.byProcess, s.byPid, ProcessKey)
  }

  // ---------- one index ----------

  lemma InsertKeeps(index: map<string, Table>, table: Table, key: Details -> string, pid: Pid, d: Details)
    requires Indexed(index, table, key)
    requires pid in table ==> key(table[pid]) == key(d)
    ensures Indexed(Insert(index, key(d), pid, d), table[pid := d], key)
  {
    var after := Insert(index, key(d), pid, d);
    assert pid in after[key(d)];
  }

  /** An entry inserted under a new group leaves the old one behind. */
  lemma InsertStale(index: map<string, Table>, table: Table, key: Details -> string, pid: Pid, d: Details)
    requires Indexed(index, table, key) && pid in table && key(table[pid]) != key(d)
    ensures !Indexed(Insert(index, key(d), pid, d), table[pid := d], key)
  {
    var k := key(table[pid]);
    var after := Insert(index, key(d), pid, d);
    assert k in after && after[k] == index[k] && pid in after[k];
    assert table[pid := d][pid] == d;
  }

  lemma DeleteKeeps(index: map<string, Table>, table: Table, key: Details -> string, pid: Pid)
    requires Indexed(index, table, key) && pid in table
    ensures Indexed(Delete(index, key(table[pid]), pid), table - {pid}, key)
  {
    var k0 := key(table[pid]);
    var after := Delete(index, k0, pid);
    var rest := index[k0] - {pid};
    if rest == map[] {
      forall p | p in table - {pid} ensures key(table[p]) in after && p in after[key(table[p])] {
        assert p in index[key(table[p])];
        assert key(table[p]) == k0 ==> p in rest;
      }
    }
  }

  // ---------- both indexes ----------

  /** Tracking a process keeps the agreement iff it is new or keeps both its groups. */
  lemma StartTrackAgrees(s: State, pid: Pid, d: Details, distribution: Option<Distro>)
    requires Agreement(s)
    ensures Agreement(StartTrack(s, pid, d, distribution)) <==>
            (pid in s.byPid ==> s.byPid[pid].cg == d.cg && s.byPid[pid].pg == d.pg)
  {
    var t := StartTrack(s, pid, d, distribution);
    if pid in s.byPid && s.byPid[pid].cg != d.cg {
      InsertStale(s.byConfig, s.byPid, ConfigKey, pid, d);
    } else if pid in s.byPid && s.byPid[pid].pg != d.pg {
      InsertStale(s.byProcess, s.byPid, ProcessKey, pid, d);
    } else {
      InsertKeeps(s.byConfig, s.byPid, ConfigKey, pid, d);
      InsertKeeps(s.byProcess, s.byPid, ProcessKey, pid, d);
    }
  }

  lemma StopTrackAgrees(s: State, pid: Pid)
    requires Agreement(s)
    ensures Agreement(StopTrack(s, pid))
  {
    if pid in s.byPid {
      DeleteKeeps(s.byConfig, s.byPid, ConfigKey, pid);
      DeleteKeeps(s.byProcess, s.byPid, ProcessKey, pid);
    }
  }

  lemma CleanAgrees(s: State, pid: Pid, lookup: Option<Distro>)
    requires Agreement(s)
    ensures Agreement(Clean(s, pid, lookup))
  {
    if pid in s.byPid && (s.byPid[pid].distroInst.Some? ==> lookup.Some?) {
      StopTrackAgrees(s.(log := s.log + CleanTail(pid, s.byPid[pid], lookup)), pid);
    }
  }

  /** The process, if tracked, resolves to the groups it is tracked under. */
  predicate SameGroups(s: State, pid: Pid, a: Answers) {
    pid in s.byPid && a.configGroup.Some? && a.processGroup.Some? ==>
      a.configGroup.value == s.byPid[pid].cg && a.processGroup.value == s.byPid[pid].pg
  }

  lemma TryInstrumentAgrees(f: Factories, s: State, pid: Pid, pd: ProcessDetails, a: Answers)
    requires Agreement(s) && SameGroups(s, pid, a)
    ensures Agreement(TryInstrument(f, s, pid, pd, a).0)
  {
    if !IsInstrumented(f, s, pid, a.tracked) && a.distribution.Some? && a.configGroup.Some? && a.processGroup.Some? {
      var (s1, generics) := AttachGenerics(s, pid, a.generics);
      var d := Details(None, generics, pd, a.configGroup.value, a.processGroup.value);
      assert Agreement(s1);
      if a.distribution.value.name in f.distros {
        AttachDistroAgrees(s1, pid, d, a.distribution.value, a.distro);
      } else {
        StartTrackAgrees(s1, pid, d, None);
      }
    }
  }

  lemma AttachDistroAgrees(s: State, pid: Pid, d: Details, distro: Distro, outcome: Outcome)
    requires Agreement(s) && (pid in s.byPid ==> s.byPid[pid].cg == d.cg && s.byPid[pid].pg == d.pg)
    ensures Agreement(AttachDistro(s, pid, d, distro, outcome).0)
  {
    var created := outcome.LoadFailed? || outcome.Loads?;
    var s1 := s.(next := if created then s.next + 1 else s.next, log := s.log + Reports(pid, s.next, outcome));
    StartTrackAgrees(s1, pid, d.(distroInst := if outcome.Loads? then Some(s.next) else None), Some(distro));
  }

  predicate StableOp(s: State, op: Op) {
    match op
    case Attempt(pid, _, a) => SameGroups(s, pid, a)
    case Guarded(pid, _, _, a) => SameGroups(s, pid, a)
    case _ => true
  }

  /** Every operation of the run resolves tracked processes to the groups they are tracked under. */
  predicate StableRun(f: Factories, ops: seq<Op>) {
    ops == [] || (StableRun(f, ops[..|ops| - 1]) && StableOp(Perform(f, Start, ops[..|ops| - 1]), ops[|ops| - 1]))
  }

  lemma StepAgrees(f: Factories, s: State, op: Op)
    requires Agreement(s) && StableOp(s, op)
    ensures Agreement(Step(f, s, op))
  {
    match op
    case Attempt(pid, pd, a) => TryInstrumentAgrees(f, s, pid, pd, a);
    case Guarded(pid, pd, precheck, a) => TryInstrumentAgrees(f, s, pid, pd, a);
    case Cleanup(pid, lookup) => CleanAgrees(s, pid, lookup);
    case Configure(_, _, _) =>
  }

  /** In every state of a run with stable groups, both indexes agree with the table. */
  lemma {:induction false} RunAgrees(f: Factories, ops: seq<Op>)
    requires StableRun(f, ops)
    ensures Agreement(Perform(f, Start, ops))
  {
    if ops != [] {
      RunAgrees(f, ops[..|ops| - 1]);
      StepAgrees(f, Perform(f, Start, ops[..|ops| - 1]), ops[|ops| - 1]);
    }
  }

  // ---------- un-instrumenting a process group ----------

  /** The cleanups of an un-instrument request, in the order the group is walked. */
  function Cleanups(order: seq<Pid>, lookup: Pid -> Option<Distro>): seq<Op> {
    if order == [] then []
    else Cleanups(order[..|order| - 1], lookup) + [Cleanup(order[|order| - 1], lookup(order[|order| - 1]))]
  }

  /** The whole table, scanned for a process group. */
  function PidsOfGroup(s: State, pg: ProcessGroup): set<Pid> {
    set p | p in s.byPid && s.byPid[p].pg == pg
  }

  lemma CleanTable(f: Factories, s: State, pid: Pid, lookup: Option<Distro>)
    requires Step(f, s, Cleanup(pid, lookup)).panicked.None?
    ensures s.panicked.None? && Step(f, s, Cleanup(pid, lookup)).byPid == s.byPid - {pid}
  {
  }

  lemma TakeBoth(table: Table, a: set<Pid>, b: set<Pid>)
    ensures table - a - b == table - (a + b)
  {
  }

  lemma {:induction false} CleanupsRemove(f: Factories, s: State, order: seq<Pid>, lookup: Pid -> Option<Distro>)
    requires Perform(f, s, Cleanups(order, lookup)).panicked.None?
    ensures Perform(f, s, Cleanups(order, lookup)).byPid == s.byPid - Elements(order)
    ensures s.panicked.None?
  {
    if order == [] {
      assert s.byPid - Elements(order) == s.byPid;
    } else {
      var front, last := order[..|order| - 1], order[|order| - 1];
      var t := Perform(f, s, Cleanups(front, lookup));
      PerformSnoc(f, s, Cleanups(front, lookup), Cleanup(last, lookup(last)));
      CleanTable(f, t, last, lookup(last));
      CleanupsRemove(f, s, front, lookup);
      Extend(front, last);
      assert order == front + [last];
      TakeBoth(s.byPid, Elements(front), {last});
    }
  }

  /**
   Un-instrumenting a group through the index, in whatever order the group is walked, removes exactly
   the processes a scan of the whole table finds, and leaves every other record as it was.
   */
  lemma UninstrumentIsScan(f: Factories, s: State, pg: ProcessGroup, order: seq<Pid>, lookup: Pid -> Option<Distro>)
    requires Agreement(s) && Elements(order) == Inner(s.byProcess, pg).Keys
    requires Perform(f, s, Cleanups(order, lookup)).panicked.None?
    ensures Perform(f, s, Cleanups(order, lookup)).byPid == s.byPid - PidsOfGroup(s, pg)
  {
    CleanupsRemove(f, s, order, lookup);
    GroupIsScan(s, pg);
  }

  lemma GroupIsScan(s: State, pg: ProcessGroup)
    requires Agreement(s)
    ensures Inner(s.byProcess, pg).Keys == PidsOfGroup(s, pg)
  {
  }

  // ---------- updating the configuration of a config group ----------

  function Deliveries(log: seq<Entry>, i: Inst, config: Config): nat { multiset(log)[Applied(i, config)] }

  lemma {:induction false} AppliedTailDelivers(insts: seq<Inst>, config: Config, i: Inst)
    ensures Deliveries(AppliedTail(insts, config), i, config) == multiset(insts)[i]
  {
    if insts != [] {
      assert insts == insts[..|insts| - 1] + [insts[|insts| - 1]];
      AppliedTailDelivers(insts[..|insts| - 1], config, i);
    }
  }

  lemma {:induction false} ApplyDelivers(s: State, table: Table, order: seq<Pid>, config: Config, i: Inst)
    requires Conserved(s) && Distinct(order)
    requires forall p :: p in order ==> p in table && p in s.byPid && table[p] == s.byPid[p]
    ensures Deliveries(ApplyInOrder(table, order, config), i, config) ==
            if exists p :: p in order && Holds(s, p, i) then 1 else 0
  {
    if order != [] {
      var front, last := order[..|order| - 1], order[|order| - 1];
      assert order == front + [last];
      assert last in order && last !in front;
      ApplyDelivers(s, table, front, config, i);
      var insts := table[last].Insts();
      AppliedTailDelivers(insts, config, i);
      CountInDistinct(insts, i);
      assert ApplyInOrder(table, order, config) == ApplyInOrder(table, front, config) + AppliedTail(insts, config);
      if Holds(s, last, i) {
        assert forall p :: p in front && Holds(s, p, i) ==> p == last;
      }
    }
  }

  /**
   A configuration update reaches each instrumentation, of a distribution or generic, owned by a
   process of that config group exactly once, and no other instrumentation at all.
   */
  lemma UpdateReachesGroup(f: Factories, s: State, cg: ConfigGroup, config: Config, order: seq<Pid>, i: Inst)
    requires Conserved(s) && Agreement(s) && s.panicked.None?
    requires Distinct(order) && Elements(order) == Inner(s.byConfig, cg).Keys
    ensures Deliveries(Step(f, s, Configure(cg, config, order)).log, i, config) ==
            Deliveries(s.log, i, config) + if exists p :: Holds(s, p, i) && s.byPid[p].cg == cg then 1 else 0
  {
    var table := Inner(s.byConfig, cg);
    InnerIsScan(s, cg, order);
    ApplyDelivers(s, table, order, config, i);
    assert Step(f, s, Configure(cg, config, order)).log == s.log + ApplyInOrder(table, order, config);
    assert (exists p :: p in order && Holds(s, p, i)) <==> (exists p :: Holds(s, p, i) && s.byPid[p].cg == cg);
  }

  lemma InnerIsScan(s: State, cg: ConfigGroup, order: seq<Pid>)
    requires Agreement(s) && Elements(order) == Inner(s.byConfig, cg).Keys
    ensures forall p :: p in order <==> p in s.byPid && s.byPid[p].cg == cg
    ensures forall p :: p in order ==> p in Inner(s.byConfig, cg) && Inner(s.byConfig, cg)[p] == s.byPid[p]
  {
    assert forall p :: p in order <==> p in Elements(order);
  }

  // ---------- retrying failed instrumentations ----------

  /** What the environment answers when one process is retried. */
  datatype Retry = Retry(filter: Option<Distro>, precheck: Option<Distro>, answers: Answers)

  /** The records a retry request re-attempts: no live instrumentation, and wanted by the filter. */
  function FailedPids(s: State, wanted: set<string>, env: Pid -> Retry): set<Pid> {
    set p | p in s.byPid && s.byPid[p].distroInst.None? &&
            (wanted == {} || (env(p).filter.Some? && env(p).filter.value.name in wanted))
  }

  function Retries(s: State, order: seq<Pid>, env: Pid -> Retry): seq<Op>
    requires forall p :: p in order ==> p in s.byPid
  {
    if order == [] then []
    else
      var last := order[|order| - 1];
      Retries(s, order[..|order| - 1], env) + [Guarded(last, s.byPid[last].pd, env(last).precheck, env(last).answers)]
  }

  /** A later record of a process is the earlier one, up to its own instrumentation and its groups. */
  predicate Retried(before: Details, after: Details) {
    after.genericInsts == before.genericInsts && after.pd == before.pd
  }

  lemma {:induction false} RetryFrame(f: Factories, s: State, order: seq<Pid>, env: Pid -> Retry, p: Pid)
    requires Distinct(order) && forall q :: q in order ==> q in s.byPid
    ensures var t := Perform(f, s, Retries(s, order, env));
      && t.byPid.Keys == s.byPid.Keys
      && t.panicked == s.panicked
      && (p in s.byPid ==> Retried(s.byPid[p], t.byPid[p]))
      && (p in s.byPid && p !in order ==> t.byPid[p] == s.byPid[p])
      && (p in s.byPid && IsInstrumented(f, s, p, env(p).precheck) ==> t.byPid[p] == s.byPid[p])
  {
    if order != [] {
      var front, last := order[..|order| - 1], order[|order| - 1];
      assert order == front + [last];
      assert last in order && last !in front;
      var ops := Retries(s, order, env);
      assert ops[..|ops| - 1] == Retries(s, front, env);
      RetryFrame(f, s, front, env, p);
      RetryFrame(f, s, front, env, last);
      var t := Perform(f, s, Retries(s, front, env));
      assert Perform(f, s, ops) == Step(f, t, ops[|ops| - 1]);
      GuardedFrame(f, t, last, s.byPid[last].pd, env(last).precheck, env(last).answers);
    }
  }

  lemma GuardedFrame(f: Factories, s: State, pid: Pid, pd: ProcessDetails, precheck: Option<Distro>, a: Answers)
    requires pid in s.byPid && pd == s.byPid[pid].pd
    ensures var t := Step(f, s, Guarded(pid, pd, precheck, a));
      && t.byPid == s.byPid[pid := t.byPid[pid]]
      && Retried(s.byPid[pid], t.byPid[pid])
      && t.panicked == s.panicked
      && (IsInstrumented(f, s, pid, precheck) ==> t == s)
  {
  }

  /** How often the process has been reported as initialized or as failing to. */
  function Inits(log: seq<Entry>, p: Pid): nat { multiset(log)[Init(p, true)] + multiset(log)[Init(p, false)] }

  lemma {:induction false} LoadedTailInits(insts: seq<Inst>, p: Pid)
    ensures Inits(LoadedTail(insts), p) == 0
  {
    if insts != [] { LoadedTailInits(insts[..|insts| - 1], p); }
  }

  lemma TryInstrumentInits(f: Factories, s: State, pid: Pid, pd: ProcessDetails, a: Answers, p: Pid)
    requires p != pid || a.distribution.None? || a.distribution.value.name !in f.distros
    ensures Inits(TryInstrument(f, s, pid, pd, a).0.log, p) == Inits(s.log, p)
  {
    var t := TryInstrument(f, s, pid, pd, a).0;
    if t != s {
      var (s1, generics) := AttachGenerics(s, pid, a.generics);
      LoadedTailInits(generics, p);
      assert Inits(s1.log, p) == Inits(s.log, p);
      if a.distribution.value.name in f.distros {
        AttachDistroInits(s1, pid, Details(None, generics, pd, a.configGroup.value, a.processGroup.value),
                          a.distribution.value, a.distro, p);
      }
    }
  }

  lemma AttachDistroInits(s: State, pid: Pid, d: Details, distro: Distro, outcome: Outcome, p: Pid)
    requires p != pid
    ensures Inits(AttachDistro(s, pid, d, distro, outcome).0.log, p) == Inits(s.log, p)
  {
    var t := AttachDistro(s, pid, d, distro, outcome).0;
    var reports := Reports(pid, s.next, outcome);
    var tail := t.log[|s.log| + |reports|..];
    assert t.log == (s.log + reports) + tail;
    assert tail == [] || (|tail| == 1 && !tail[0].Init?);
    assert Inits(tail, p) == 0;
    ReportsInits(pid, s.next, outcome, p);
  }

  lemma ReportsInits(pid: Pid, inst: Inst, outcome: Outcome, p: Pid)
    requires p != pid
    ensures Inits(Reports(pid, inst, outcome), p) == 0
  {
  }

  /** A retry attempts a process only if it walks it and its distribution has a registered factory. */
  lemma {:induction false} RetryAttempts(f: Factories, s: State, order: seq<Pid>, env: Pid -> Retry, p: Pid)
    requires forall q :: q in order ==> q in s.byPid
    requires p !in order || env(p).answers.distribution.None? || env(p).answers.distribution.value.name !in f.distros
    ensures Inits(Perform(f, s, Retries(s, order, env)).log, p) == Inits(s.log, p)
  {
    if order != [] {
      var front, last := order[..|order| - 1], order[|order| - 1];
      assert last in order;
      assert p in front ==> p in order;
      RetryAttempts(f, s, front, env, p);
      var op := Guarded(last, s.byPid[last].pd, env(last).precheck, env(last).answers);
      PerformSnoc(f, s, Retries(s, front, env), op);
      TryInstrumentInits(f, Perform(f, s, Retries(s, front, env)), last, op.pd, op.answers, p);
    }
  }

  /**
   A retry request keeps the set of tracked processes and every record's generic instrumentations.
   Live records, records the filter does not want, and records whose distribution has no factory
   are not touched at all.
   */
  lemma RetryTouchesOnlyFailed(
    f: Factories, s: State, wanted: set<string>, order: seq<Pid>, env: Pid -> Retry, p: Pid)
    requires Distinct(order) && Elements(order) == FailedPids(s, wanted, env) && p in s.byPid
    requires forall q :: q in order ==> q in s.byPid
    ensures var t := Perform(f, s, Retries(s, order, env));
      && t.byPid.Keys == s.byPid.Keys && t.byPid[p].genericInsts == s.byPid[p].genericInsts
      && (t.byPid[p] != s.byPid[p] ==>
            && s.byPid[p].distroInst.None?
            && (wanted == {} || (env(p).filter.Some? && env(p).filter.value.name in wanted))
            && env(p).precheck.Some? && env(p).precheck.value.name in f.distros)
  {
    RetryFrame(f, s, order, env, p);
    assert p in order <==> p in Elements(order);
  }
}
