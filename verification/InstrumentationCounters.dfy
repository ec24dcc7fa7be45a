/**
 The instrumented-processes gauge. It is raised under the distribution a process was loaded with and
 lowered under whatever the process resolves to when it is cleaned, so it counts the live processes
 exactly as long as those two agree; when processes resolve to one fixed distribution it always does.
 */
module InstrumentationCounters {
  import opened Wrappers
  import opened InstrumentationModel

  /** The value of the gauge under one label. */
  function Gauge(log: seq<Entry>, distro: Distro): int {
    if log == [] then 0
    else
      var before := Gauge(log[..|log| - 1], distro);
      match log[|log| - 1]
      case Up(_, _, l) => if l == distro then before + 1 else before
      case Down(_, _, l) => if l == distro then before - 1 else before
      case _ => before
  }

  /** The label an instrumentation was last counted under. */
  function LabelOf(log: seq<Entry>, inst: Inst): Option<Distro> {
    if log == [] then None
    else
      match log[|log| - 1]
      case Up(_, i, l) => if i == inst then Some(l) else LabelOf(log[..|log| - 1], inst)
      case _ => LabelOf(log[..|log| - 1], inst)
  }

  /** The tracked processes whose live instrumentation was loaded under this label. */
  function LiveUnder(s: State, distro: Distro): set<Pid> {
    set p | p in s.byPid && s.byPid[p].distroInst.Some? && LabelOf(s.log, s.byPid[p].distroInst.value) == Some(distro)
  }

  ghost predicate Accounted(s: State) {
    forall l :: Gauge(s.log, l) == |LiveUnder(s, l)|
  }

  /** Every live instrumentation was counted; none not yet made was. */
  ghost predicate Labelled(s: State) {
    && (forall p :: p in s.byPid && s.byPid[p].distroInst.Some? ==>
          s.byPid[p].distroInst.value < s.next && LabelOf(s.log, s.byPid[p].distroInst.value).Some?)
    && (forall i :: s.next <= i ==> LabelOf(s.log, i) == None)
  }

  // ---------- reading tails ----------

  const AnyDistro := Distro("", "")

  predicate Uncounted(e: Entry) { !e.Up? && !e.Down? }

  lemma AppendEntry(log: seq<Entry>, e: Entry, l: Distro, i: Inst)
    ensures Gauge(log + [e], l) == Gauge(log, l) + (if e.Up? && e.distro == l then 1 else 0)
                                                 - (if e.Down? && e.distro == l then 1 else 0)
    ensures LabelOf(log + [e], i) == if e.Up? && e.inst == i then Some(e.distro) else LabelOf(log, i)
  {
  }

  lemma {:induction false} AppendUncounted(log: seq<Entry>, tail: seq<Entry>, l: Distro, i: Inst)
    requires forall e :: e in tail ==> Uncounted(e)
    ensures Gauge(log + tail, l) == Gauge(log, l) && LabelOf(log + tail, i) == LabelOf(log, i)
  {
    if tail == [] {
      assert log + tail == log;
    } else {
      var front, last := tail[..|tail| - 1], tail[|tail| - 1];
      AppendUncounted(log, front, l, i);
      assert last in tail;
      assert log + tail == (log + front) + [last];
      AppendEntry(log + front, last, l, i);
    }
  }

  lemma {:induction false} TailsUncounted(insts: seq<Inst>, config: Config)
    ensures forall e :: e in LoadedTail(insts) ==> Uncounted(e)
    ensures forall e :: e in ClosedTail(insts) ==> Uncounted(e)
    ensures forall e :: e in AppliedTail(insts, config) ==> Uncounted(e)
  {
    if insts != [] { TailsUncounted(insts[..|insts| - 1], config); }
  }

  lemma {:induction false} ApplyUncounted(table: Table, order: seq<Pid>, config: Config)
    requires forall p :: p in order ==> p in table
    ensures forall e :: e in ApplyInOrder(table, order, config) ==> Uncounted(e)
  {
    if order != [] {
      ApplyUncounted(table, order[..|order| - 1], config);
      var last := order[|order| - 1];
      TailsUncounted(table[last].Insts(), config);
    }
  }

  // ---------- how the table may change ----------

  /** Only uncounted entries were added, and no live record came or went. */
  lemma NotCounted(s: State, t: State, tail: seq<Entry>)
    requires Labelled(s) && t.log == s.log + tail && s.next <= t.next
    requires forall e :: e in tail ==> Uncounted(e)
    requires forall p :: p in t.byPid && t.byPid[p].distroInst.Some? ==>
               p in s.byPid && s.byPid[p].distroInst == t.byPid[p].distroInst
    requires forall p :: p in s.byPid && s.byPid[p].distroInst.Some? ==>
               p in t.byPid && s.byPid[p].distroInst == t.byPid[p].distroInst
    ensures Labelled(t) && (Accounted(s) ==> Accounted(t))
  {
    forall l ensures Gauge(t.log, l) == Gauge(s.log, l) { AppendUncounted(s.log, tail, l, 0); }
    forall i ensures LabelOf(t.log, i) == LabelOf(s.log, i) { AppendUncounted(s.log, tail, AnyDistro, i); }
    forall l ensures LiveUnder(t, l) == LiveUnder(s, l) {
      assert forall p :: p in LiveUnder(t, l) <==> p in LiveUnder(s, l);
    }
  }

  /** A process that was not live is now, counted under `distro`. */
  lemma CountedUp(s: State, t: State, pid: Pid, inst: Inst, distro: Distro, tail: seq<Entry>)
    requires Labelled(s) && t.log == s.log + tail + [Up(pid, inst, distro)]
    requires forall e :: e in tail ==> Uncounted(e)
    requires s.next <= inst < t.next
    requires pid in t.byPid && t.byPid == s.byPid[pid := t.byPid[pid]] && t.byPid[pid].distroInst == Some(inst)
    requires pid in s.byPid ==> s.byPid[pid].distroInst.None?
    ensures Labelled(t) && (Accounted(s) ==> Accounted(t))
  {
    forall l ensures Gauge(t.log, l) == Gauge(s.log, l) + if l == distro then 1 else 0 {
      AppendUp(s.log, tail, pid, inst, distro, l, 0);
    }
    forall i ensures LabelOf(t.log, i) == if i == inst then Some(distro) else LabelOf(s.log, i) {
      AppendUp(s.log, tail, pid, inst, distro, AnyDistro, i);
    }
    StillLabelled(s, t, pid, inst, distro);
    forall l ensures LiveUnder(t, l) == LiveUnder(s, l) + if l == distro then {pid} else {} {
      assert forall p :: p in LiveUnder(t, l) <==> p in LiveUnder(s, l) || (p == pid && l == distro);
    }
    if Accounted(s) {
      OneMoreLive(s, t, pid, distro);
    }
  }

  lemma AppendUp(log: seq<Entry>, tail: seq<Entry>, pid: Pid, inst: Inst, distro: Distro, l: Distro, i: Inst)
    requires forall e :: e in tail ==> Uncounted(e)
    ensures Gauge(log + tail + [Up(pid, inst, distro)], l) == Gauge(log, l) + if l == distro then 1 else 0
    ensures LabelOf(log + tail + [Up(pid, inst, distro)], i) == if i == inst then Some(distro) else LabelOf(log, i)
  {
    AppendUncounted(log, tail, l, i);
    AppendEntry(log + tail, Up(pid, inst, distro), l, i);
  }

  lemma StillLabelled(s: State, t: State, pid: Pid, inst: Inst, distro: Distro)
    requires Labelled(s) && s.next <= inst < t.next
    requires pid in t.byPid && t.byPid == s.byPid[pid := t.byPid[pid]] && t.byPid[pid].distroInst == Some(inst)
    requires forall i :: LabelOf(t.log, i) == if i == inst then Some(distro) else LabelOf(s.log, i)
    ensures Labelled(t)
  {
  }

  lemma OneMoreLive(s: State, t: State, pid: Pid, distro: Distro)
    requires Accounted(s) && forall l :: pid !in LiveUnder(s, l)
    requires forall l :: Gauge(t.log, l) == Gauge(s.log, l) + if l == distro then 1 else 0
    requires forall l :: LiveUnder(t, l) == LiveUnder(s, l) + if l == distro then {pid} else {}
    ensures Accounted(t)
  {
  }

  /**
   A live process left the table and the gauge was lowered under `distro`: the count stays right
   exactly when that is the label the process had been counted under.
   */
  lemma CountedDown(s: State, t: State, pid: Pid, distro: Distro, tail: seq<Entry>)
    requires Labelled(s) && pid in s.byPid && s.byPid[pid].distroInst.Some?
    requires var i := s.byPid[pid].distroInst.value; t.log == s.log + [Closed(i), Down(pid, i, distro)] + tail
    requires forall e :: e in tail ==> Uncounted(e)
    requires t.byPid == s.byPid - {pid} && s.next == t.next
    ensures Labelled(t)
    ensures Accounted(s) ==> (Accounted(t) <==> LabelOf(s.log, s.byPid[pid].distroInst.value) == Some(distro))
  {
    var inst := s.byPid[pid].distroInst.value;
    var old_ := LabelOf(s.log, inst).value;
    var closed, down := Closed(inst), Down(pid, inst, distro);
    assert t.log == s.log + [closed] + [down] + tail;
    forall l ensures Gauge(t.log, l) == Gauge(s.log, l) - if l == distro then 1 else 0 {
      AppendEntry(s.log, closed, l, 0);
      AppendEntry(s.log + [closed], down, l, 0);
      AppendUncounted(s.log + [closed] + [down], tail, l, 0);
    }
    forall i ensures LabelOf(t.log, i) == LabelOf(s.log, i) {
      AppendEntry(s.log, closed, AnyDistro, i);
      AppendEntry(s.log + [closed], down, AnyDistro, i);
      AppendUncounted(s.log + [closed] + [down], tail, AnyDistro, i);
    }
    forall l ensures LiveUnder(t, l) == LiveUnder(s, l) - (if l == old_ then {pid} else {}) { }
    assert pid in LiveUnder(s, old_);
    if old_ != distro {
      assert Gauge(t.log, old_) == Gauge(s.log, old_);
      assert |LiveUnder(t, old_)| == |LiveUnder(s, old_)| - 1;
    }
  }

  // ---------- the operations ----------

  /** Cleaning a process keeps the gauge right iff it resolves to the label it was loaded under. */
  lemma CleanCounts(s: State, pid: Pid, lookup: Option<Distro>)
    requires Labelled(s)
    ensures var t := Clean(s, pid, lookup);
      && Labelled(t)
      && (Accounted(s) ==>
            (Accounted(t) <==>
             pid in s.byPid && s.byPid[pid].distroInst.Some? && lookup.Some? ==>
               LabelOf(s.log, s.byPid[pid].distroInst.value) == lookup))
  {
    if pid in s.byPid {
      var d := s.byPid[pid];
      var t := Clean(s, pid, lookup);
      if d.distroInst.Some? && lookup.None? {
        NotCounted(s, t, [Closed(d.distroInst.value)]);
      } else {
        TailsUncounted(d.genericInsts, "");
        var tail := ClosedTail(d.genericInsts) + [Exit(pid)] + [Untracked(pid)];
        assert t.log == s.log + CleanTail(pid, d, lookup) + [Untracked(pid)];
        if d.distroInst.Some? {
          var head := [Closed(d.distroInst.value), Down(pid, d.distroInst.value, lookup.value)];
          assert CleanTail(pid, d, lookup) + [Untracked(pid)] == head + tail;
          assert t.log == s.log + head + tail;
          CountedDown(s, t, pid, lookup.value, tail);
        } else {
          assert CleanTail(pid, d, lookup) + [Untracked(pid)] == tail;
          assert t.log == s.log + tail;
          NotCounted(s, t, tail);
        }
      }
    }
  }

  lemma AttachDistroCounts(s: State, pid: Pid, d: Details, distro: Distro, outcome: Outcome)
    requires Labelled(s) && (pid in s.byPid ==> s.byPid[pid].distroInst.None?)
    ensures var t := AttachDistro(s, pid, d, distro, outcome).0; Labelled(t) && (Accounted(s) ==> Accounted(t))
  {
    var t := AttachDistro(s, pid, d, distro, outcome).0;
    var reports := Reports(pid, s.next, outcome);
    assert forall e :: e in reports ==> Uncounted(e);
    var d' := d.(distroInst := if outcome.Loads? then Some(s.next) else None);
    var tail := TrackTail(s, pid, d', Some(distro));
    assert t.byPid == s.byPid[pid := d'];
    assert t.log == s.log + reports + tail;
    if outcome.Loads? {
      CountedUp(s, t, pid, s.next, distro, reports);
    } else {
      assert t.log == s.log + (reports + tail);
      NotCounted(s, t, reports + tail);
    }
  }

  lemma TryInstrumentCounts(f: Factories, s: State, pid: Pid, pd: ProcessDetails, a: Answers)
    requires Labelled(s)
    ensures var t := TryInstrument(f, s, pid, pd, a).0; Labelled(t) && (Accounted(s) ==> Accounted(t))
  {
    if !IsInstrumented(f, s, pid, a.tracked) && a.distribution.Some? && a.configGroup.Some? && a.processGroup.Some? {
      var (s1, generics) := AttachGenerics(s, pid, a.generics);
      var tail := if pid in s.byPid then [] else LoadedTail(generics);
      TailsUncounted(generics, "");
      assert s1.log == s.log + tail;
      NextGrows(a.generics, s.next);
      NotCounted(s, s1, tail);
      var d := Details(None, generics, pd, a.configGroup.value, a.processGroup.value);
      if a.distribution.value.name in f.distros {
        AttachDistroCounts(s1, pid, d, a.distribution.value, a.distro);
      } else if f.generics != 0 && generics != [] {
        var t := StartTrack(s1, pid, d, None);
        assert t.log == s1.log + [];
        NotCounted(s1, t, []);
      }
    }
  }

  lemma {:induction false} NextGrows(outcomes: seq<Outcome>, next: Inst)
    ensures next <= LoadGenerics(outcomes, next).1
  {
    if outcomes != [] { NextGrows(outcomes[..|outcomes| - 1], next); }
  }

  /**
   The condition is needed: a process that is cleaned under another label than it was loaded with
   leaves both gauges wrong.
   */
  lemma LabelDrift(pid: Pid, pd: ProcessDetails, a: Distro, b: Distro)
    requires a != b
    ensures var s := Perform(Factories({a.name}, 0), Start, [LoadOne(pid, pd, a), Cleanup(pid, Some(b))]);
      s.byPid == map[] && Gauge(s.log, a) == 1 && Gauge(s.log, b) == -1
  {
    var f := Factories({a.name}, 0);
    var ops := [LoadOne(pid, pd, a), Cleanup(pid, Some(b))];
    OneLoads(pid, pd, a);
    PerformSnoc(f, Start, [ops[0]], ops[1]);
    assert [ops[0]] + [ops[1]] == ops;
    DriftGauge(pid, a, b, a);
    DriftGauge(pid, a, b, b);
    DriftIs(pid, pd, a, b);
  }

  lemma DriftIs(pid: Pid, pd: ProcessDetails, a: Distro, b: Distro)
    ensures Clean(OneLoaded(pid, pd, a), pid, Some(b)).log == DriftLog(pid, a, b)
    ensures Clean(OneLoaded(pid, pd, a), pid, Some(b)).byPid == map[]
  {
    assert ClosedTail([]) == [];
  }

  function DriftLog(pid: Pid, a: Distro, b: Distro): seq<Entry> {
    [Init(pid, true), Loaded(0), Load(pid, true)] + [Up(pid, 0, a)] + [Closed(0)] + [Down(pid, 0, b)]
    + [Exit(pid), Untracked(pid)]
  }

  lemma DriftGauge(pid: Pid, a: Distro, b: Distro, l: Distro)
    ensures Gauge(DriftLog(pid, a, b), l) == (if l == a then 1 else 0) - (if l == b then 1 else 0)
  {
    var reports := [Init(pid, true), Loaded(0), Load(pid, true)];
    AppendUncounted([], reports, l, 0);
    assert [] + reports == reports;
    AppendEntry(reports, Up(pid, 0, a), l, 0);
    AppendEntry(reports + [Up(pid, 0, a)], Closed(0), l, 0);
    AppendEntry(reports + [Up(pid, 0, a)] + [Closed(0)], Down(pid, 0, b), l, 0);
    AppendUncounted(reports + [Up(pid, 0, a)] + [Closed(0)] + [Down(pid, 0, b)], [Exit(pid), Untracked(pid)], l, 0);
  }

  // ---------- runs in which processes resolve to one fixed distribution ----------

  /** The answers of an operation agree with a fixed resolution of process details. */
  predicate SteadyOp(dist: ProcessDetails -> Option<Distro>, s: State, op: Op) {
    match op
    case Attempt(pid, pd, a) => a.distribution == dist(pd)
    case Guarded(pid, pd, _, a) => a.distribution == dist(pd)
    case Cleanup(pid, lookup) => pid in s.byPid ==> lookup == dist(s.byPid[pid].pd)
    case Configure(_, _, _) => true
  }

  predicate SteadyRun(f: Factories, dist: ProcessDetails -> Option<Distro>, ops: seq<Op>) {
    ops == [] ||
    (SteadyRun(f, dist, ops[..|ops| - 1]) && SteadyOp(dist, Perform(f, Start, ops[..|ops| - 1]), ops[|ops| - 1]))
  }

  /** Every live process is counted under the distribution its details resolve to. */
  ghost predicate Steady(dist: ProcessDetails -> Option<Distro>, s: State) {
    forall p :: p in s.byPid && s.byPid[p].distroInst.Some? ==>
      LabelOf(s.log, s.byPid[p].distroInst.value) == dist(s.byPid[p].pd)
  }

  lemma TryInstrumentSteady(
      f: Factories, dist: ProcessDetails -> Option<Distro>, s: State, pid: Pid, pd: ProcessDetails, a: Answers)
    requires Labelled(s) && Steady(dist, s) && a.distribution == dist(pd)
    ensures Steady(dist, TryInstrument(f, s, pid, pd, a).0)
  {
    var t := TryInstrument(f, s, pid, pd, a).0;
    TryInstrumentCounts(f, s, pid, pd, a);
    if !IsInstrumented(f, s, pid, a.tracked) && a.distribution.Some? && a.configGroup.Some? && a.processGroup.Some? {
      var (s1, generics) := AttachGenerics(s, pid, a.generics);
      var tail := if pid in s.byPid then [] else LoadedTail(generics);
      assert s1.log == s.log + tail;
      NextGrows(a.generics, s.next);
      TailsUncounted(generics, "");
      NotCounted(s, s1, tail);
      forall i ensures LabelOf(s1.log, i) == LabelOf(s.log, i) { AppendUncounted(s.log, tail, AnyDistro, i); }
      var d := Details(None, generics, pd, a.configGroup.value, a.processGroup.value);
      if a.distribution.value.name in f.distros {
        AttachDistroSteady(dist, s1, pid, d, a.distribution.value, a.distro);
      } else {
        assert StartTrack(s1, pid, d, None).log == s1.log + [] == s1.log;
        assert f.generics == 0 || t == s1 || t == StartTrack(s1, pid, d, None);
      }
    }
  }

  lemma AttachDistroSteady(
      dist: ProcessDetails -> Option<Distro>, s: State, pid: Pid, d: Details, distro: Distro, outcome: Outcome)
    requires Labelled(s) && Steady(dist, s) && dist(d.pd) == Some(distro)
    requires pid in s.byPid ==> s.byPid[pid].distroInst.None?
    ensures Steady(dist, AttachDistro(s, pid, d, distro, outcome).0)
  {
    var t := AttachDistro(s, pid, d, distro, outcome).0;
    var reports := Reports(pid, s.next, outcome);
    var d' := d.(distroInst := if outcome.Loads? then Some(s.next) else None);
    var track := TrackTail(s, pid, d', Some(distro));
    assert t.byPid == s.byPid[pid := d'];
    assert t.log == s.log + reports + track;
    forall i ensures LabelOf(t.log, i) == if outcome.Loads? && i == s.next then Some(distro) else LabelOf(s.log, i) {
      AppendUncounted(s.log, reports, distro, i);
      if outcome.Loads? {
        assert track == [Up(pid, s.next, distro)];
        AppendEntry(s.log + reports, Up(pid, s.next, distro), distro, i);
      } else {
        AppendUncounted(s.log + reports, track, distro, i);
      }
    }
  }

  lemma CleanSteady(dist: ProcessDetails -> Option<Distro>, s: State, pid: Pid)
    requires Labelled(s) && Steady(dist, s) && pid in s.byPid
    ensures var t := Clean(s, pid, dist(s.byPid[pid].pd)); Steady(dist, t) && t.panicked == s.panicked
  {
    var d := s.byPid[pid];
    var lookup := dist(d.pd);
    var t := Clean(s, pid, lookup);
    TailsUncounted(d.genericInsts, "");
    assert t.log == s.log + (CleanTail(pid, d, lookup) + [Untracked(pid)]);
    forall i ensures LabelOf(t.log, i) == LabelOf(s.log, i) {
      LabelsSurvive(s.log, CleanTail(pid, d, lookup) + [Untracked(pid)], i);
    }
  }

  lemma {:induction false} LabelsSurvive(log: seq<Entry>, tail: seq<Entry>, i: Inst)
    requires forall e :: e in tail ==> !e.Up?
    ensures LabelOf(log + tail, i) == LabelOf(log, i)
  {
    if tail == [] {
      assert log + tail == log;
    } else {
      var front, last := tail[..|tail| - 1], tail[|tail| - 1];
      LabelsSurvive(log, front, i);
      assert last in tail;
      assert log + tail == (log + front) + [last];
      AppendEntry(log + front, last, AnyDistro, i);
    }
  }

  lemma StepSteady(f: Factories, dist: ProcessDetails -> Option<Distro>, s: State, op: Op)
    requires s.panicked.None? && Labelled(s) && Accounted(s) && Steady(dist, s) && SteadyOp(dist, s, op)
    ensures var t := Step(f, s, op); t.panicked.None? && Labelled(t) && Accounted(t) && Steady(dist, t)
  {
    match op
    case Attempt(pid, pd, a) =>
      TryInstrumentCounts(f, s, pid, pd, a);
      TryInstrumentSteady(f, dist, s, pid, pd, a);
    case Guarded(pid, pd, precheck, a) =>
      TryInstrumentCounts(f, s, pid, pd, a);
      TryInstrumentSteady(f, dist, s, pid, pd, a);
    case Cleanup(pid, lookup) =>
      CleanCounts(s, pid, lookup);
      if pid in s.byPid { CleanSteady(dist, s, pid); }
    case Configure(cg, config, order) =>
      var table := Inner(s.byConfig, cg);
      if forall p :: p in order ==> p in table {
        ApplyUncounted(table, order, config);
        NotCounted(s, Step(f, s, op), ApplyInOrder(table, order, config));
        forall i ensures LabelOf(Step(f, s, op).log, i) == LabelOf(s.log, i) {
          AppendUncounted(s.log, ApplyInOrder(table, order, config), AnyDistro, i);
        }
      }
  }

  /** The tracked processes with a live instrumentation whose details resolve to this distribution. */
  function LiveOf(dist: ProcessDetails -> Option<Distro>, s: State, distro: Distro): set<Pid> {
    set p | p in s.byPid && s.byPid[p].distroInst.Some? && dist(s.byPid[p].pd) == Some(distro)
  }

  lemma {:induction false} SteadyRunInvariant(f: Factories, dist: ProcessDetails -> Option<Distro>, ops: seq<Op>)
    requires SteadyRun(f, dist, ops)
    ensures var s := Perform(f, Start, ops); s.panicked.None? && Labelled(s) && Accounted(s) && Steady(dist, s)
  {
    if ops == [] {
      assert forall l :: LiveUnder(Start, l) == {};
    } else {
      SteadyRunInvariant(f, dist, ops[..|ops| - 1]);
      StepSteady(f, dist, Perform(f, Start, ops[..|ops| - 1]), ops[|ops| - 1]);
    }
  }

  /** With a fixed resolution nothing panics and, per label, the gauge counts the live processes. */
  lemma GaugeCountsLive(f: Factories, dist: ProcessDetails -> Option<Distro>, ops: seq<Op>, distro: Distro)
    requires SteadyRun(f, dist, ops)
    ensures var s := Perform(f, Start, ops);
      s.panicked.None? && Gauge(s.log, distro) == |LiveOf(dist, s, distro)|
  {
    SteadyRunInvariant(f, dist, ops);
    SteadyLabels(dist, Perform(f, Start, ops), distro);
  }

  lemma SteadyLabels(dist: ProcessDetails -> Option<Distro>, s: State, distro: Distro)
    requires Steady(dist, s)
    ensures LiveOf(dist, s, distro) == LiveUnder(s, distro)
  {
  }
}
