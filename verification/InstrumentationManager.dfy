/**
 The manager itself: one method per method of `instrumentation/manager.go`, updating the three tables
 in place. Every method is tied to the function of the model that describes it, so what is proved of
 runs of the model holds of the event loop.
 */
module InstrumentationManager {
  import opened Wrappers
  import opened InstrumentationModel
  import Conservation = InstrumentationConservation
  import Reports = InstrumentationReports
  import opened InstrumentationIndexes

  /** A process to instrument on request, with the environment's answers. */
  datatype Job = Job(pd: ProcessDetails, precheck: Option<Distro>, answers: Answers)

  datatype Event =
    | ProcessStarted(pid: Pid, details: Option<ProcessDetails>, answers: Answers)  // exec, fork, file open
    | ProcessExited(pid: Pid, lookup: Option<Distro>)
    | Instrument(jobs: map<Pid, Job>)
    | Uninstrument(group: ProcessGroup, lookups: Pid -> Option<Distro>)
    | RetryFailed(wanted: set<string>, env: Pid -> Retry)
    | ConfigUpdate(updates: map<ConfigGroup, Config>)

  function Attempts(order: seq<Pid>, jobs: map<Pid, Job>): seq<Op>
    requires forall p :: p in order ==> p in jobs
  {
    if order == [] then []
    else
      var last := order[|order| - 1];
      Attempts(order[..|order| - 1], jobs) + [Guarded(last, jobs[last].pd, jobs[last].precheck, jobs[last].answers)]
  }

  /** The operations that handling an event in state `s` may amount to, over every iteration order. */
  ghost predicate Handles(f: Factories, s: State, e: Event, ops: seq<Op>) {
    match e
    case ProcessStarted(pid, details, answers) =>
      ops == if details.Some? then [Attempt(pid, details.value, answers)] else []
    case ProcessExited(pid, lookup) =>
      ops == [Cleanup(pid, lookup)]
    case Instrument(jobs) =>
      exists order: seq<Pid> :: Distinct(order) && Elements(order) == jobs.Keys && ops == Attempts(order, jobs)
    case Uninstrument(group, lookups) =>
      exists order: seq<Pid> :: Distinct(order) && ops == Cleanups(order, lookups) &&
        Elements(order) <= Inner(s.byProcess, group).Keys &&
        (Perform(f, s, ops).panicked.None? ==> Elements(order) == Inner(s.byProcess, group).Keys)
    case RetryFailed(wanted, env) =>
      exists order: seq<Pid> :: Distinct(order) && Elements(order) == FailedPids(s, wanted, env) &&
        (forall p :: p in order ==> p in s.byPid) && ops == Retries(s, order, env)
    case ConfigUpdate(updates) =>
      exists plan :: CoversUpdates(s, updates, plan) && ops == Deliver(plan, updates)
  }

  function Joined(parts: seq<seq<Op>>): seq<Op> {
    if parts == [] then [] else Joined(parts[..|parts| - 1]) + parts[|parts| - 1]
  }

  /** Each part handles its event, in the state the parts before it lead to, which has not panicked. */
  ghost predicate Serves(f: Factories, events: seq<Event>, parts: seq<seq<Op>>) {
    parts == [] ||
    (|parts| <= |events| &&
     var front, s := parts[..|parts| - 1], Perform(f, Start, Joined(parts[..|parts| - 1]));
     Serves(f, events, front) && s.panicked.None? && Handles(f, s, events[|parts| - 1], parts[|parts| - 1]))
  }

  /** A config group and the order its processes are walked in. */
  type Delivery = (ConfigGroup, seq<Pid>)

  /** Every updated group once, with every process of the group once. */
  ghost predicate CoversUpdates(s: State, updates: map<ConfigGroup, Config>, plan: seq<Delivery>) {
    && (forall k :: 0 <= k < |plan| ==> plan[k].0 in updates)
    && (forall cg :: cg in updates ==> exists k :: 0 <= k < |plan| && plan[k].0 == cg)
    && (forall j, k :: 0 <= j < k < |plan| ==> plan[j].0 != plan[k].0)
    && (forall k :: 0 <= k < |plan| ==> Distinct(plan[k].1) && Elements(plan[k].1) == Inner(s.byConfig, plan[k].0).Keys)
  }

  function Deliver(plan: seq<Delivery>, updates: map<ConfigGroup, Config>): seq<Op>
    requires forall k :: 0 <= k < |plan| ==> plan[k].0 in updates
  {
    if plan == [] then []
    else
      var last := plan[|plan| - 1];
      Deliver(plan[..|plan| - 1], updates) + [Configure(last.0, updates[last.0], last.1)]
  }

  /** Cleaning a process takes nothing else out of a group. */
  lemma CleanInner(s: State, pid: Pid, lookup: Option<Distro>, group: ProcessGroup)
    ensures Inner(Clean(s, pid, lookup).byProcess, group).Keys + {pid} == Inner(s.byProcess, group).Keys + {pid}
  {
  }

  lemma {:induction false} RetriesAreAttempts(s: State, order: seq<Pid>, env: Pid -> Retry, jobs: map<Pid, Job>)
    requires forall p :: p in order ==> p in s.byPid && p in jobs
    requires forall p :: p in order ==> jobs[p] == Job(s.byPid[p].pd, env(p).precheck, env(p).answers)
    ensures Attempts(order, jobs) == Retries(s, order, env)
  {
    if order != [] {
      assert order[|order| - 1] in order;
      RetriesAreAttempts(s, order[..|order| - 1], env, jobs);
    }
  }

  /** The walk has met the visited members of a group once each, and the others are still there. */
  ghost predicate Visits(order: seq<Pid>, visited: set<Pid>, left: set<Pid>, all: set<Pid>) {
    Distinct(order) && Elements(order) == visited && left + visited == all
  }

  lemma VisitsMore(order: seq<Pid>, visited: set<Pid>, left: set<Pid>, all: set<Pid>, pid: Pid)
    requires Visits(order, visited, left, all) && pid in left - visited
    ensures pid in all && Distinct(order + [pid]) && Elements(order + [pid]) == visited + {pid}
    ensures all - (visited + {pid}) < all - visited
  {
    assert pid !in Elements(order);
    Extend(order, pid);
  }

  lemma PlanGrows(s: State, updates: map<ConfigGroup, Config>, remaining: set<ConfigGroup>, plan: seq<Delivery>,
      cg: ConfigGroup, order: seq<Pid>)
    requires cg in remaining && cg in updates
    requires CoversUpdates(s, updates - remaining, plan)
    requires Distinct(order) && Elements(order) == Inner(s.byConfig, cg).Keys
    ensures CoversUpdates(s, updates - (remaining - {cg}), plan + [(cg, order)])
  {
    var grown := plan + [(cg, order)];
    assert grown[|plan|].0 == cg;
    assert forall c :: c in updates - (remaining - {cg}) ==> c == cg || c in updates - remaining;
    forall c | c in updates - remaining ensures exists k :: 0 <= k < |grown| && grown[k].0 == c {
      var k :| 0 <= k < |plan| && plan[k].0 == c;
      assert grown[k].0 == c;
    }
  }

  lemma {:induction false} ClosedTailCons(i: Inst, rest: seq<Inst>)
    ensures ClosedTail([i] + rest) == [Closed(i)] + ClosedTail(rest)
  {
    if rest == [] {
      assert [i] + rest == [] + [i];
      SnocTail([], "", i);
    } else {
      var front, last := rest[..|rest| - 1], rest[|rest| - 1];
      ClosedTailCons(i, front);
      assert [i] + rest == ([i] + front) + [last];
      SnocTail([i] + front, "", last);
    }
  }

  lemma {:induction false} AppliedTailCons(i: Inst, rest: seq<Inst>, config: Config)
    ensures AppliedTail([i] + rest, config) == [Applied(i, config)] + AppliedTail(rest, config)
  {
    if rest == [] {
      assert [i] + rest == [] + [i];
      SnocTail([], config, i);
    } else {
      var front, last := rest[..|rest| - 1], rest[|rest| - 1];
      AppliedTailCons(i, front, config);
      assert [i] + rest == ([i] + front) + [last];
      SnocTail([i] + front, config, last);
    }
  }

  lemma ApplyOneMore(log: seq<Entry>, table: Table, order: seq<Pid>, pid: Pid, config: Config)
    requires pid in table && forall p :: p in order ==> p in table
    ensures forall p :: p in order + [pid] ==> p in table
    ensures log + ApplyInOrder(table, order, config) + AppliedTail(table[pid].Insts(), config) ==
            log + ApplyInOrder(table, order + [pid], config)
  {
    assert (order + [pid])[..|order|] == order;
    Regroup(log, ApplyInOrder(table, order, config), AppliedTail(table[pid].Insts(), config), []);
  }

  lemma CloseSnoc(log: seq<Entry>, table: Table, order: seq<Pid>, pid: Pid)
    requires pid in table && forall p :: p in order ==> p in table
    ensures forall p :: p in order + [pid] ==> p in table
    ensures log + CloseInOrder(table, order) + ClosedTail(table[pid].Insts()) + [Exit(pid)] ==
            log + CloseInOrder(table, order + [pid])
  {
  }

  lemma SnocTail(insts: seq<Inst>, config: Config, i: Inst)
    ensures LoadedTail(insts + [i]) == LoadedTail(insts) + [Loaded(i)]
    ensures ClosedTail(insts + [i]) == ClosedTail(insts) + [Closed(i)]
    ensures AppliedTail(insts + [i], config) == AppliedTail(insts, config) + [Applied(i, config)]
  {
  }

  class Manager {
    const factories: Factories
    var detailsByPid: map<Pid, Details>
    var detailsByConfigGroup: map<ConfigGroup, map<Pid, Details>>
    var detailsByProcessGroup: map<ProcessGroup, map<Pid, Details>>
    var nextInst: Inst
    var panicked: Option<Pid>
    ghost var log: seq<Entry>

    ghost function Abs(): State
      reads this
    {
      State(detailsByPid, detailsByConfigGroup, detailsByProcessGroup, nextInst, log, panicked)
    }

    constructor (factories: Factories)
      ensures Abs() == Start && this.factories == factories
    {
      this.factories := factories;
      detailsByPid, detailsByConfigGroup, detailsByProcessGroup := map[], map[], map[];
      nextInst, panicked, log := 0, None, [];
    }

    method StartTrackInstrumentation(pid: Pid, distroInst: Option<Inst>, genericInsts: seq<Inst>,
        pd: ProcessDetails, pg: ProcessGroup, cg: ConfigGroup, distribution: Option<Distro>)
      modifies this
      ensures Abs() == StartTrack(old(Abs()), pid, Details(distroInst, genericInsts, pd, cg, pg), distribution)
    {
      var hadPrev := pid in detailsByPid;
      var prevHadInst := hadPrev && detailsByPid[pid].distroInst.Some?;
      var instDetails := Details(distroInst, genericInsts, pd, cg, pg);
      detailsByPid := detailsByPid[pid := instDetails];
      if cg !in detailsByConfigGroup {
        detailsByConfigGroup := detailsByConfigGroup[cg := map[pid := instDetails]];
      } else {
        detailsByConfigGroup := detailsByConfigGroup[cg := detailsByConfigGroup[cg][pid := instDetails]];
      }
      if pg !in detailsByProcessGroup {
        detailsByProcessGroup := detailsByProcessGroup[pg := map[pid := instDetails]];
      } else {
        detailsByProcessGroup := detailsByProcessGroup[pg := detailsByProcessGroup[pg][pid := instDetails]];
      }
      if distribution.None? {
        assert log + [] == log;
        return;
      }
      if distroInst.None? && !hadPrev {
        log := log + [Failed(pid, distribution.value)];
      } else if distroInst.Some? && !prevHadInst {
        log := log + [Up(pid, distroInst.value, distribution.value)];
      } else {
        assert log + [] == log;
      }
    }

    method StopTrackInstrumentation(pid: Pid)
      modifies this
      ensures Abs() == StopTrack(old(Abs()), pid)
    {
      if pid !in detailsByPid {
        return;
      }
      var cg, pg := detailsByPid[pid].cg, detailsByPid[pid].pg;
      detailsByPid := detailsByPid - {pid};
      DeleteFromIndexes(cg, pg, pid);
      log := log + [Untracked(pid)];
    }

    method DeleteFromIndexes(cg: ConfigGroup, pg: ProcessGroup, pid: Pid)
      modifies this`detailsByConfigGroup, this`detailsByProcessGroup
      ensures detailsByConfigGroup == Delete(old(detailsByConfigGroup), cg, pid)
      ensures detailsByProcessGroup == Delete(old(detailsByProcessGroup), pg, pid)
    {
      detailsByConfigGroup := DeleteFromIndex(detailsByConfigGroup, cg, pid);
      detailsByProcessGroup := DeleteFromIndex(detailsByProcessGroup, pg, pid);
    }

    /** Deletes the entry, then the group if that left it empty. */
    static method DeleteFromIndex(index: map<string, Table>, k: string, pid: Pid) returns (r: map<string, Table>)
      ensures r == Delete(index, k, pid)
    {
      r := index;
      if k in r {
        r := r[k := r[k] - {pid}];
      }
      if k !in r || r[k] == map[] {
        r := r - {k};
      }
    }

    method CloseAll(insts: seq<Inst>)
      modifies this`log
      ensures log == old(log) + ClosedTail(insts)
    {
      for k := 0 to |insts|
        invariant log == old(log) + ClosedTail(insts[..k])
      {
        log := log + [Closed(insts[k])];
        assert insts[..k + 1] == insts[..k] + [insts[k]];
        SnocTail(insts[..k], "", insts[k]);
      }
      assert insts[..|insts|] == insts;
    }

    method CleanInstrumentation(pid: Pid, lookup: Option<Distro>)
      modifies this
      ensures Abs() == Clean(old(Abs()), pid, lookup)
    {
      if pid !in detailsByPid {
        return;
      }
      var details := detailsByPid[pid];
      if details.distroInst.Some? {
        log := log + [Closed(details.distroInst.value)];
        if lookup.None? {
          panicked := Some(pid);
          return;
        }
        log := log + [Down(pid, details.distroInst.value, lookup.value)];
      }
      CloseAll(details.genericInsts);
      log := log + [Exit(pid)];
      assert log == old(log) + CleanTail(pid, details, lookup);
      StopTrackInstrumentation(pid);
    }

    method IsInstrumentedByDistro(pid: Pid, lookup: Option<Distro>) returns (r: bool)
      ensures r == IsInstrumented(factories, Abs(), pid, lookup)
    {
      if pid !in detailsByPid {
        return false;
      }
      if detailsByPid[pid].distroInst.Some? {
        return true;
      }
      if lookup.None? {
        return true;
      }
      return lookup.value.name !in factories.distros;
    }

    method LoadGenericInstrumentations(outcomes: seq<Outcome>) returns (insts: seq<Inst>)
      requires |outcomes| == factories.generics
      modifies this
      ensures var (loaded, next) := LoadGenerics(outcomes, old(nextInst));
        insts == loaded && Abs() == old(Abs()).(next := next, log := old(log) + LoadedTail(loaded))
    {
      insts := [];
      for k := 0 to factories.generics
        invariant var (loaded, next) := LoadGenerics(outcomes[..k], old(nextInst));
          insts == loaded && Abs() == old(Abs()).(next := next, log := old(log) + LoadedTail(loaded))
      {
        assert outcomes[..k + 1][..k] == outcomes[..k];
        match outcomes[k] {
          case NotApplicable =>
          case CreateFailed =>
          case LoadFailed =>
            nextInst := nextInst + 1;
          case Loads =>
            SnocTail(insts, "", nextInst);
            log := log + [Loaded(nextInst)];
            insts := insts + [nextInst];
            nextInst := nextInst + 1;
        }
      }
      assert outcomes[..|outcomes|] == outcomes;
    }

    method TryInstrument(pid: Pid, pd: ProcessDetails, a: Answers) returns (err: Option<Error>)
      requires |a.generics| == factories.generics
      modifies this
      ensures (Abs(), err) == InstrumentationModel.TryInstrument(factories, old(Abs()), pid, pd, a)
    {
      var instrumented := IsInstrumentedByDistro(pid, a.tracked);
      if instrumented {
        return None;
      }
      if a.distribution.None? {
        return Some(NoDistribution);
      }
      if a.configGroup.None? {
        return Some(NoConfigGroup);
      }
      if a.processGroup.None? {
        return Some(NoProcessGroup);
      }
      var otelDistro, cg, pg := a.distribution.value, a.configGroup.value, a.processGroup.value;
      var hasDistroFactory := otelDistro.name in factories.distros;
      if !hasDistroFactory && factories.generics == 0 {
        return Some(NoFactory);
      }
      var genericInsts;
      if pid in detailsByPid {
        genericInsts := detailsByPid[pid].genericInsts;
      } else {
        genericInsts := LoadGenericInstrumentations(a.generics);
      }
      if !hasDistroFactory {
        if |genericInsts| == 0 {
          return Some(NoFactory);
        }
        StartTrackInstrumentation(pid, None, genericInsts, pd, pg, cg, None);
        return None;
      }
      err := AttachOwnInstrumentation(pid, genericInsts, pd, pg, cg, otelDistro, a.distro);
    }

    /** The last part of tryInstrument: the distribution's own factory. */
    method AttachOwnInstrumentation(pid: Pid, genericInsts: seq<Inst>, pd: ProcessDetails, pg: ProcessGroup,
        cg: ConfigGroup, otelDistro: Distro, outcome: Outcome) returns (err: Option<Error>)
      modifies this
      ensures (Abs(), err) ==
              AttachDistro(old(Abs()), pid, Details(None, genericInsts, pd, cg, pg), otelDistro, outcome)
    {
      ghost var reports := InstrumentationModel.Reports(pid, nextInst, outcome);
      if outcome.NotApplicable? || outcome.CreateFailed? {
        log := log + [Init(pid, false)];
        StartTrackInstrumentation(pid, None, genericInsts, pd, pg, cg, Some(otelDistro));
        return Some(InitError);
      }
      var inst := nextInst;
      nextInst := nextInst + 1;
      log := log + [Init(pid, true)];
      if outcome.LoadFailed? {
        log := log + [Load(pid, false)];
        assert log == old(log) + reports;
        StartTrackInstrumentation(pid, None, genericInsts, pd, pg, cg, Some(otelDistro));
        return Some(LoadError);
      }
      log := log + [Loaded(inst)];
      log := log + [Load(pid, true)];
      assert log == old(log) + reports;
      StartTrackInstrumentation(pid, Some(inst), genericInsts, pd, pg, cg, Some(otelDistro));
      return None;
    }

    predicate WellFormed(a: Answers) { |a.generics| == factories.generics }

    /** Attempts every process of a request, in some order, skipping those already instrumented. */
    method InstrumentFromDetails(jobs: map<Pid, Job>) returns (ghost order: seq<Pid>)
      requires panicked.None? && forall p :: p in jobs ==> WellFormed(jobs[p].answers)
      modifies this
      ensures Distinct(order) && Elements(order) == jobs.Keys
      ensures forall p :: p in order ==> p in jobs
      ensures Abs() == Perform(factories, old(Abs()), Attempts(order, jobs)) && panicked.None?
    {
      order := [];
      var remaining := jobs.Keys;
      while |remaining| != 0
        invariant remaining <= jobs.Keys && Distinct(order) && Elements(order) == jobs.Keys - remaining
        invariant forall p :: p in order ==> p in jobs && p !in remaining
        invariant panicked.None? && Abs() == Perform(factories, old(Abs()), Attempts(order, jobs))
        decreases remaining
      {
        var pid :| pid in remaining;
        remaining := remaining - {pid};
        var job := jobs[pid];
        Extend(order, pid);
        PerformSnoc(factories, old(Abs()), Attempts(order, jobs), Guarded(pid, job.pd, job.precheck, job.answers));
        order := order + [pid];
        AttemptJob(pid, job);
      }
    }

    /** One turn of the loop over the requested processes. */
    method AttemptJob(pid: Pid, job: Job)
      requires panicked.None? && WellFormed(job.answers)
      modifies this
      ensures Abs() == Step(factories, old(Abs()), Guarded(pid, job.pd, job.precheck, job.answers)) && panicked.None?
    {
      var instrumented := IsInstrumentedByDistro(pid, job.precheck);
      if !instrumented {
        var _ := TryInstrument(pid, job.pd, job.answers);
      }
    }

    method FailedProcessDetailsByDistro(wanted: set<string>, env: Pid -> Retry) returns (byPid: map<Pid, Job>)
      ensures byPid.Keys == FailedPids(Abs(), wanted, env)
      ensures forall p :: p in byPid ==> byPid[p] == Job(detailsByPid[p].pd, env(p).precheck, env(p).answers)
    {
      byPid := map[];
      var remaining := detailsByPid.Keys;
      while |remaining| != 0
        invariant remaining <= detailsByPid.Keys
        invariant byPid.Keys == FailedPids(Abs(), wanted, env) - remaining
        invariant forall p :: p in byPid ==> byPid[p] == Job(detailsByPid[p].pd, env(p).precheck, env(p).answers)
        decreases remaining
      {
        var pid :| pid in remaining;
        remaining := remaining - {pid};
        var details := detailsByPid[pid];
        if details.distroInst.Some? {
          continue;
        }
        if wanted != {} {
          if env(pid).filter.None? {
            continue;
          }
          if env(pid).filter.value.name !in wanted {
            continue;
          }
        }
        byPid := byPid[pid := Job(details.pd, env(pid).precheck, env(pid).answers)];
      }
    }

    method RetryFailedInstrumentationsForDistros(wanted: set<string>, env: Pid -> Retry) returns (ghost ops: seq<Op>)
      requires panicked.None? && forall p :: WellFormed(env(p).answers)
      modifies this
      ensures Handles(factories, old(Abs()), RetryFailed(wanted, env), ops)
      ensures Abs() == Perform(factories, old(Abs()), ops)
    {
      var byPid := FailedProcessDetailsByDistro(wanted, env);
      ghost var order := [];
      if |byPid| != 0 {
        order := InstrumentFromDetails(byPid);
      }
      RetriesAreAttempts(old(Abs()), order, env, byPid);
      ops := Retries(old(Abs()), order, env);
    }

    /** An un-instrument request: walks the group's table while cleaning deletes from it. */
    method UninstrumentGroup(group: ProcessGroup, lookups: Pid -> Option<Distro>) returns (ghost order: seq<Pid>)
      requires panicked.None?
      modifies this
      ensures Distinct(order) && Elements(order) <= Inner(old(detailsByProcessGroup), group).Keys
      ensures panicked.None? ==> Elements(order) == Inner(old(detailsByProcessGroup), group).Keys
      ensures Abs() == Perform(factories, old(Abs()), Cleanups(order, lookups))
    {
      order := [];
      ghost var all := Inner(detailsByProcessGroup, group).Keys;
      var visited: set<Pid> := {};
      while panicked.None? && group in detailsByProcessGroup && |detailsByProcessGroup[group].Keys - visited| != 0
        invariant Visits(order, visited, Inner(detailsByProcessGroup, group).Keys, all)
        invariant Abs() == Perform(factories, old(Abs()), Cleanups(order, lookups))
        decreases all - visited
      {
        var pid :| pid in detailsByProcessGroup[group].Keys - visited;
        VisitsMore(order, visited, Inner(detailsByProcessGroup, group).Keys, all, pid);
        CleanMember(pid, lookups, group, visited, all, old(Abs()), order);
        order := order + [pid];
        visited := visited + {pid};
      }
    }

    /** One turn of the loop over a group: cleaning one process takes no other out of the group. */
    method CleanMember(pid: Pid, lookups: Pid -> Option<Distro>, group: ProcessGroup,
        ghost visited: set<Pid>, ghost all: set<Pid>, ghost start: State, ghost order: seq<Pid>)
      requires panicked.None? && pid in all
      requires Inner(detailsByProcessGroup, group).Keys + visited == all
      requires Abs() == Perform(factories, start, Cleanups(order, lookups))
      modifies this
      ensures Abs() == Perform(factories, start, Cleanups(order + [pid], lookups))
      ensures Inner(detailsByProcessGroup, group).Keys + (visited + {pid}) == all
    {
      CleanInner(Abs(), pid, lookups(pid), group);
      CleanInstrumentation(pid, lookups(pid));
      Extend(order, pid);
      PerformSnoc(factories, start, Cleanups(order, lookups), Cleanup(pid, lookups(pid)));
    }

    /** Delivers a configuration to every instrumentation of a config group. */
    method ApplyInstrumentationConfigurationForSDK(cg: ConfigGroup, config: Config) returns (ghost order: seq<Pid>)
      requires panicked.None?
      modifies this`log
      ensures Distinct(order) && Elements(order) == Inner(detailsByConfigGroup, cg).Keys
      ensures Abs() == Step(factories, old(Abs()), Configure(cg, config, order))
    {
      order := [];
      if cg !in detailsByConfigGroup {
        assert log + ApplyInOrder(Inner(detailsByConfigGroup, cg), [], config) == log;
        return;
      }
      order := ApplyToTable(detailsByConfigGroup[cg], config);
      assert forall p :: p in order ==> p in Elements(order);
    }

    /** The loop over the records of one group. */
    method ApplyToTable(table: Table, config: Config) returns (ghost order: seq<Pid>)
      modifies this`log
      ensures Distinct(order) && Elements(order) == table.Keys && forall p :: p in order ==> p in table
      ensures log == old(log) + ApplyInOrder(table, order, config)
    {
      order := [];
      var remaining := table.Keys;
      assert log + ApplyInOrder(table, [], config) == log;
      while |remaining| != 0
        invariant remaining <= table.Keys && Distinct(order) && Elements(order) == table.Keys - remaining
        invariant forall p :: p in order ==> p in table && p !in remaining
        invariant log == old(log) + ApplyInOrder(table, order, config)
        decreases remaining
      {
        var pid :| pid in remaining;
        remaining := remaining - {pid};
        Extend(order, pid);
        ApplyToDetails(table[pid], config);
        ApplyOneMore(old(log), table, order, pid, config);
        order := order + [pid];
      }
      assert table.Keys - remaining == table.Keys;
    }

    method ApplyToDetails(instDetails: Details, config: Config)
      modifies this`log
      ensures log == old(log) + AppliedTail(instDetails.Insts(), config)
    {
      if instDetails.distroInst.Some? {
        log := log + [Applied(instDetails.distroInst.value, config)];
        AppliedTailCons(instDetails.distroInst.value, instDetails.genericInsts, config);
      } else {
        assert instDetails.Insts() == instDetails.genericInsts;
      }
      ghost var before := log;
      var insts := instDetails.genericInsts;
      for k := 0 to |insts|
        invariant log == before + AppliedTail(insts[..k], config)
      {
        log := log + [Applied(insts[k], config)];
        assert insts[..k + 1] == insts[..k] + [insts[k]];
        SnocTail(insts[..k], config, insts[k]);
      }
      assert insts[..|insts|] == insts;
    }

    method ApplyUpdates(updates: map<ConfigGroup, Config>) returns (ghost ops: seq<Op>)
      requires panicked.None?
      modifies this`log
      ensures Handles(factories, old(Abs()), ConfigUpdate(updates), ops)
      ensures Abs() == Perform(factories, old(Abs()), ops)
    {
      ghost var plan: seq<Delivery> := [];
      var remaining := updates.Keys;
      while |remaining| != 0
        invariant remaining <= updates.Keys
        invariant forall k :: 0 <= k < |plan| ==> plan[k].0 in updates && plan[k].0 !in remaining
        invariant CoversUpdates(old(Abs()), updates - remaining, plan)
        invariant Abs() == Perform(factories, old(Abs()), Deliver(plan, updates))
        invariant detailsByConfigGroup == old(detailsByConfigGroup) && panicked.None?
        decreases remaining
      {
        var cg :| cg in remaining;
        ghost var order := ApplyInstrumentationConfigurationForSDK(cg, updates[cg]);
        PlanGrows(old(Abs()), updates, remaining, plan, cg, order);
        remaining := remaining - {cg};
        ghost var front, ops' := plan, Deliver(plan + [(cg, order)], updates);
        plan := plan + [(cg, order)];
        assert plan[..|plan| - 1] == front;
        assert ops'[..|ops'| - 1] == Deliver(front, updates);
      }
      assert updates - remaining == updates;
      ops := Deliver(plan, updates);
    }

    /** One turn of the event loop. */
    method HandleEvent(e: Event) returns (ghost ops: seq<Op>)
      requires panicked.None?
      requires e.ProcessStarted? ==> WellFormed(e.answers)
      requires e.Instrument? ==> forall p :: p in e.jobs ==> WellFormed(e.jobs[p].answers)
      requires e.RetryFailed? ==> forall p :: WellFormed(e.env(p).answers)
      modifies this
      ensures Handles(factories, old(Abs()), e, ops)
      ensures Abs() == Perform(factories, old(Abs()), ops)
    {
      ops := [];
      match e {
        case ProcessStarted(pid, details, answers) =>
          if details.Some? {
            var _ := TryInstrument(pid, details.value, answers);
            ops := [Attempt(pid, details.value, answers)];
            PerformOne(factories, old(Abs()), ops[0]);
          }
        case ProcessExited(pid, lookup) =>
          CleanInstrumentation(pid, lookup);
          ops := [Cleanup(pid, lookup)];
          PerformOne(factories, old(Abs()), ops[0]);
        case Instrument(jobs) =>
          ghost var order := InstrumentFromDetails(jobs);
          ops := Attempts(order, jobs);
        case Uninstrument(group, lookups) =>
          ghost var order := UninstrumentGroup(group, lookups);
          ops := Cleanups(order, lookups);
        case RetryFailed(wanted, env) =>
          ops := RetryFailedInstrumentationsForDistros(wanted, env);
        case ConfigUpdate(updates) =>
          ops := ApplyUpdates(updates);
      }
    }

    /** The deferred cleanup of the event loop. */
    method Shutdown() returns (ghost order: seq<Pid>)
      modifies this
      ensures Distinct(order) && forall p :: p in order <==> p in old(detailsByPid)
      ensures Abs() == InstrumentationModel.Shutdown(old(Abs()), order)
    {
      order := CloseTracked();
      detailsByPid, detailsByConfigGroup, detailsByProcessGroup := map[], map[], map[];
    }

    method CloseTracked() returns (ghost order: seq<Pid>)
      modifies this`log
      ensures Distinct(order) && forall p :: p in order <==> p in detailsByPid
      ensures log == old(log) + CloseInOrder(detailsByPid, order)
    {
      order := [];
      var remaining := detailsByPid.Keys;
      while |remaining| != 0
        invariant remaining <= detailsByPid.Keys && Distinct(order)
        invariant forall p :: p in order <==> p in detailsByPid && p !in remaining
        invariant log == old(log) + CloseInOrder(detailsByPid, order)
        decreases remaining
      {
        var pid :| pid in remaining;
        remaining := remaining - {pid};
        CloseTrackedProcess(pid);
        Extend(order, pid);
        CloseSnoc(old(log), detailsByPid, order, pid);
        order := order + [pid];
      }
    }

    method CloseTrackedProcess(pid: Pid)
      requires pid in detailsByPid
      modifies this`log
      ensures log == old(log) + ClosedTail(detailsByPid[pid].Insts()) + [Exit(pid)]
    {
      var details := detailsByPid[pid];
      if details.distroInst.Some? {
        log := log + [Closed(details.distroInst.value)];
        ClosedTailCons(details.distroInst.value, details.genericInsts);
      } else {
        assert details.Insts() == details.genericInsts;
      }
      CloseAll(details.genericInsts);
      assert log == old(log) + ClosedTail(details.Insts());
      log := log + [Exit(pid)];
    }

    /**
     The event loop over the events received before it stops, and its deferred cleanup. The k-th part is
     what handling the k-th event amounts to. Every event is handled unless one of them panics. At the end
     every instrumentation that loaded has been closed, exactly once but for the one a panic strands, and
     the reports of every process followed the protocol.
     */
    method RunEventLoop(events: seq<Event>) returns (ghost parts: seq<seq<Op>>, ghost order: seq<Pid>)
      requires Abs() == Start
      requires forall e :: e in events && e.ProcessStarted? ==> WellFormed(e.answers)
      requires forall e :: e in events && e.Instrument? ==> forall p :: p in e.jobs ==> WellFormed(e.jobs[p].answers)
      requires forall e :: e in events && e.RetryFailed? ==> forall p :: WellFormed(e.env(p).answers)
      modifies this
      ensures Serves(factories, events, parts)
      ensures var s := Perform(factories, Start, Joined(parts));
        && (|parts| < |events| ==> s.panicked.Some?)
        && Distinct(order) && (forall p :: p in order <==> p in s.byPid)
        && Abs() == InstrumentationModel.Shutdown(s, order)
      ensures Reports.Unbroken(log)
      ensures forall i :: Closes(i) == Loads(i) + if Conservation.Stranded(factories, Joined(parts), i) then 1 else 0
    {
      parts := [];
      var k := 0;
      while k < |events| && panicked.None?
        invariant k == |parts| <= |events| && Serves(factories, events, parts)
        invariant Abs() == Perform(factories, Start, Joined(parts))
      {
        ghost var before := Abs();
        ghost var done := HandleEvent(events[k]);
        PerformConcat(factories, Start, Joined(parts), done);
        assert (parts + [done])[..|parts|] == parts;
        parts := parts + [done];
        k := k + 1;
      }
      order := Shutdown();
      ghost var ops := Joined(parts);
      Reports.ShutdownUnbroken(factories, ops, order);
      forall i ensures Closes(i) == Loads(i) + if Conservation.Stranded(factories, ops, i) then 1 else 0 {
        Conservation.ShutdownClosesAll(factories, ops, order, i);
      }
    }

    ghost function Loads(i: Inst): nat reads this { Conservation.Loads(log, i) }

    ghost function Closes(i: Inst): nat reads this { Conservation.Closes(log, i) }
  }
}
