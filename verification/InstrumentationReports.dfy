/**
 The reporting protocol. For each process a small automaton reads the log; over every run it never
 breaks, and its state at an event-loop boundary is exactly what the tracking table says. The ordering
 theorems at the end read the protocol off the automaton.
 */
module InstrumentationReports {
  import opened Wrappers
  import opened InstrumentationModel

  datatype Phase =
    | Quiet    // nothing reported in this tracking episode
    | Pending  // initialized, load outcome not reported yet
    | Trying   // the last attempt failed
    | Live     // loaded
    | Exited   // exit reported, record about to leave the table
    | Broken

  /** `charged` says whether the failed counter has grown in the current episode. */
  datatype Monitor = Monitor(phase: Phase, charged: bool)

  const Fresh := Monitor(Quiet, false)

  function Advance(m: Monitor, e: Entry, pid: Pid): Monitor {
    match e
    case Init(p, ok) =>
      if p != pid then m
      else if m.phase.Quiet? || m.phase.Trying? then m.(phase := if ok then Pending else Trying)
      else m.(phase := Broken)
    case Load(p, ok) =>
      if p != pid then m
      else if m.phase.Pending? then m.(phase := if ok then Live else Trying)
      else m.(phase := Broken)
    case Exit(p) =>
      if p != pid then m
      else if m.phase.Quiet? || m.phase.Trying? || m.phase.Live? then m.(phase := Exited)
      else m.(phase := Broken)
    case Untracked(p) =>
      if p != pid then m else Monitor(if m.phase.Exited? then Quiet else Broken, false)
    case Failed(p, _) =>
      if p != pid then m
      else if m.charged then m.(phase := Broken) else m.(charged := true)
    case _ => m
  }

  function Watch(log: seq<Entry>, pid: Pid): Monitor {
    if log == [] then Fresh else Advance(Watch(log[..|log| - 1], pid), log[|log| - 1], pid)
  }

  /** What the table says about a process is what its monitor has seen. */
  ghost predicate Reported(s: State) {
    forall pid :: ReportedAt(s, pid, Watch(s.log, pid))
  }

  predicate ReportedAt(s: State, pid: Pid, m: Monitor) {
    if pid !in s.byPid then m == Fresh
    else if s.byPid[pid].distroInst.Some? then m.phase.Live?
    else m.phase.Quiet? || m.phase.Trying?
  }

  // ---------- reading tails ----------

  ghost predicate Neutral(e: Entry, pid: Pid) {
    forall m: Monitor :: Advance(m, e, pid) == m
  }

  lemma Append(log: seq<Entry>, e: Entry, pid: Pid)
    ensures Watch(log + [e], pid) == Advance(Watch(log, pid), e, pid)
  {
  }

  lemma {:induction false} AppendNeutral(log: seq<Entry>, tail: seq<Entry>, pid: Pid)
    requires forall e :: e in tail ==> Neutral(e, pid)
    ensures Watch(log + tail, pid) == Watch(log, pid)
  {
    if tail == [] {
      assert log + tail == log;
    } else {
      var front, last := tail[..|tail| - 1], tail[|tail| - 1];
      AppendNeutral(log, front, pid);
      assert last in tail;
      assert log + tail == (log + front) + [last];
      Append(log + front, last, pid);
    }
  }

  lemma {:induction false} ClosedTailNeutral(insts: seq<Inst>, pid: Pid)
    ensures forall e :: e in ClosedTail(insts) ==> Neutral(e, pid)
  {
    if insts != [] { ClosedTailNeutral(insts[..|insts| - 1], pid); }
  }

  lemma {:induction false} LoadedTailNeutral(insts: seq<Inst>, pid: Pid)
    ensures forall e :: e in LoadedTail(insts) ==> Neutral(e, pid)
  {
    if insts != [] { LoadedTailNeutral(insts[..|insts| - 1], pid); }
  }

  lemma {:induction false} AppliedTailNeutral(insts: seq<Inst>, config: Config, pid: Pid)
    ensures forall e :: e in AppliedTail(insts, config) ==> Neutral(e, pid)
  {
    if insts != [] { AppliedTailNeutral(insts[..|insts| - 1], config, pid); }
  }

  lemma {:induction false} ApplyNeutral(table: Table, order: seq<Pid>, config: Config, pid: Pid)
    requires forall p :: p in order ==> p in table
    ensures forall e :: e in ApplyInOrder(table, order, config) ==> Neutral(e, pid)
  {
    if order != [] {
      var last := order[|order| - 1];
      ApplyNeutral(table, order[..|order| - 1], config, pid);
      AppliedTailNeutral(table[last].Insts(), config, pid);
    }
  }

  // ---------- the operations ----------

  lemma WatchClean(log: seq<Entry>, pid: Pid, d: Details, lookup: Option<Distro>, other: Pid)
    requires d.distroInst.Some? ==> lookup.Some?
    ensures Watch(log + CleanTail(pid, d, lookup), other) ==
            if other != pid then Watch(log, other) else Advance(Watch(log, pid), Exit(pid), pid)
  {
    var head := if d.distroInst.Some?
                then [Closed(d.distroInst.value), Down(pid, d.distroInst.value, lookup.value)] else [];
    var closes := head + ClosedTail(d.genericInsts);
    ClosedTailNeutral(d.genericInsts, other);
    assert forall e :: e in head ==> Neutral(e, other);
    AppendNeutral(log, closes, other);
    Append(log + closes, Exit(pid), other);
    Regroup(log, closes, [Exit(pid)], []);
  }

  lemma CleanReports(s: State, pid: Pid, lookup: Option<Distro>, other: Pid)
    requires Reported(s) && s.panicked.None?
    ensures var t := Clean(s, pid, lookup); ReportedAt(t, other, Watch(t.log, other))
  {
    assert ReportedAt(s, other, Watch(s.log, other));
    if pid in s.byPid {
      var d := s.byPid[pid];
      var t := Clean(s, pid, lookup);
      if d.distroInst.Some? && lookup.None? {
        Append(s.log, Closed(d.distroInst.value), other);
      } else {
        var log := s.log + CleanTail(pid, d, lookup);
        assert t.log == log + [Untracked(pid)] && t.byPid == s.byPid - {pid};
        WatchClean(s.log, pid, d, lookup, other);
        Append(log, Untracked(pid), other);
      }
    }
  }

  /** The reports of one attempt take the monitor of the process from idle to where the attempt ended. */
  lemma WatchReports(log: seq<Entry>, pid: Pid, inst: Inst, outcome: Outcome, other: Pid)
    requires var m := Watch(log, pid); m.phase.Quiet? || m.phase.Trying?
    ensures Watch(log + Reports(pid, inst, outcome), other) ==
            if other != pid then Watch(log, other)
            else Watch(log, pid).(phase := if outcome.Loads? then Live else Trying)
  {
    match outcome
    case LoadFailed =>
      Append(log, Init(pid, true), other);
      Append(log + [Init(pid, true)], Load(pid, false), other);
      assert log + Reports(pid, inst, outcome) == log + [Init(pid, true)] + [Load(pid, false)];
    case Loads =>
      Append(log, Init(pid, true), other);
      Append(log + [Init(pid, true)], Loaded(inst), other);
      Append(log + [Init(pid, true)] + [Loaded(inst)], Load(pid, true), other);
      assert log + Reports(pid, inst, outcome) == log + [Init(pid, true)] + [Loaded(inst)] + [Load(pid, true)];
    case _ =>
      Append(log, Init(pid, false), other);
  }

  lemma StartTrackReports(s: State, pid: Pid, d: Details, distribution: Option<Distro>, other: Pid)
    requires pid !in s.byPid && d.distroInst.None? ==> !Watch(s.log, pid).charged
    ensures var t := StartTrack(s, pid, d, distribution);
      && Watch(t.log, other).phase == Watch(s.log, other).phase
      && (other != pid ==> Watch(t.log, other) == Watch(s.log, other))
  {
    var tail := TrackTail(s, pid, d, distribution);
    if tail == [] {
      assert s.log + tail == s.log;
    } else {
      assert |tail| == 1;
      assert s.log + tail == s.log + [tail[0]];
      Append(s.log, tail[0], other);
    }
  }

  lemma AttachGenericsReports(s: State, pid: Pid, outcomes: seq<Outcome>, other: Pid)
    ensures var s1 := AttachGenerics(s, pid, outcomes).0;
      Watch(s1.log, other) == Watch(s.log, other) && s1.byPid == s.byPid
  {
    if pid !in s.byPid {
      var insts := LoadGenerics(outcomes, s.next).0;
      LoadedTailNeutral(insts, other);
      AppendNeutral(s.log, LoadedTail(insts), other);
    }
  }

  lemma AttachDistroReports(s: State, pid: Pid, d: Details, distro: Distro, outcome: Outcome, other: Pid)
    requires ReportedAt(s, other, Watch(s.log, other)) && ReportedAt(s, pid, Watch(s.log, pid))
    requires pid in s.byPid ==> s.byPid[pid].distroInst.None?
    ensures var t := AttachDistro(s, pid, d, distro, outcome).0; ReportedAt(t, other, Watch(t.log, other))
  {
    var t := AttachDistro(s, pid, d, distro, outcome).0;
    var log := s.log + Reports(pid, s.next, outcome);
    WatchReports(s.log, pid, s.next, outcome, other);
    WatchReports(s.log, pid, s.next, outcome, pid);
    var d' := d.(distroInst := if outcome.Loads? then Some(s.next) else None);
    assert t.byPid == s.byPid[pid := d'];
    StartTrackReports(s.(log := log, next := t.next), pid, d', Some(distro), other);
  }

  lemma TryInstrumentReports(f: Factories, s: State, pid: Pid, pd: ProcessDetails, a: Answers, other: Pid)
    requires Reported(s) && s.panicked.None?
    ensures var t := TryInstrument(f, s, pid, pd, a).0; ReportedAt(t, other, Watch(t.log, other))
  {
    assert ReportedAt(s, other, Watch(s.log, other));
    assert ReportedAt(s, pid, Watch(s.log, pid));
    if !IsInstrumented(f, s, pid, a.tracked) && a.distribution.Some? && a.configGroup.Some? && a.processGroup.Some? {
      var (s1, generics) := AttachGenerics(s, pid, a.generics);
      AttachGenericsReports(s, pid, a.generics, other);
      AttachGenericsReports(s, pid, a.generics, pid);
      var d := Details(None, generics, pd, a.configGroup.value, a.processGroup.value);
      if a.distribution.value.name in f.distros {
        AttachDistroReports(s1, pid, d, a.distribution.value, a.distro, other);
      } else if f.generics != 0 && generics != [] {
        StartTrackReports(s1, pid, d, None, other);
      }
    }
  }

  lemma StepReports(f: Factories, s: State, op: Op)
    requires Reported(s)
    ensures Reported(Step(f, s, op))
  {
    if s.panicked.None? {
      var t := Step(f, s, op);
      forall other ensures ReportedAt(t, other, Watch(t.log, other)) {
        assert ReportedAt(s, other, Watch(s.log, other));
        match op
        case Attempt(pid, pd, a) => TryInstrumentReports(f, s, pid, pd, a, other);
        case Guarded(pid, pd, precheck, a) => TryInstrumentReports(f, s, pid, pd, a, other);
        case Cleanup(pid, lookup) => CleanReports(s, pid, lookup, other);
        case Configure(cg, config, order) =>
          if forall p :: p in order ==> p in Inner(s.byConfig, cg) {
            ApplyNeutral(Inner(s.byConfig, cg), order, config, other);
            AppendNeutral(s.log, ApplyInOrder(Inner(s.byConfig, cg), order, config), other);
          }
      }
    }
  }

  /** Over every run the monitors agree with the table; in particular none ever breaks. */
  lemma {:induction false} RunReports(f: Factories, ops: seq<Op>)
    ensures Reported(Perform(f, Start, ops))
  {
    if ops != [] {
      RunReports(f, ops[..|ops| - 1]);
      StepReports(f, Perform(f, Start, ops[..|ops| - 1]), ops[|ops| - 1]);
    }
  }

  // ---------- shutdown ----------

  lemma WatchExit(log: seq<Entry>, insts: seq<Inst>, pid: Pid, other: Pid)
    ensures Watch(log + (ClosedTail(insts) + [Exit(pid)]), other) == Advance(Watch(log, other), Exit(pid), other)
  {
    ClosedTailNeutral(insts, other);
    AppendNeutral(log, ClosedTail(insts), other);
    Append(log + ClosedTail(insts), Exit(pid), other);
    Regroup(log, ClosedTail(insts), [Exit(pid)], []);
  }

  lemma CloseOneMore(log: seq<Entry>, table: Table, order: seq<Pid>)
    requires order != [] && forall p :: p in order ==> p in table
    ensures var front, last := order[..|order| - 1], order[|order| - 1];
      log + CloseInOrder(table, order) ==
        (log + CloseInOrder(table, front)) + (ClosedTail(table[last].Insts()) + [Exit(last)])
  {
  }

  /** A shutdown reports the exit of every process still tracked, once, and of no other. */
  lemma {:induction false} ShutdownReports(log: seq<Entry>, table: Table, order: seq<Pid>, pid: Pid)
    requires Distinct(order) && forall p :: p in order ==> p in table
    ensures Watch(log + CloseInOrder(table, order), pid) ==
            if pid in order then Advance(Watch(log, pid), Exit(pid), pid) else Watch(log, pid)
  {
    if order == [] {
      assert log + CloseInOrder(table, order) == log;
    } else {
      var front, last := order[..|order| - 1], order[|order| - 1];
      assert order == front + [last];
      assert last in order && last !in front;
      var insts := table[last].Insts();
      ShutdownReports(log, table, front, pid);
      WatchExit(log + CloseInOrder(table, front), insts, last, pid);
      CloseOneMore(log, table, order);
    }
  }

  // ---------- the protocol, read off the log ----------

  /** No monitor breaks while reading the log. */
  ghost predicate Unbroken(log: seq<Entry>) {
    forall pid :: !Watch(log, pid).phase.Broken?
  }

  lemma RunUnbroken(f: Factories, ops: seq<Op>)
    ensures Unbroken(Perform(f, Start, ops).log)
  {
    var s := Perform(f, Start, ops);
    RunReports(f, ops);
    forall pid ensures !Watch(s.log, pid).phase.Broken? {
      assert ReportedAt(s, pid, Watch(s.log, pid));
    }
  }

  lemma ShutdownUnbroken(f: Factories, ops: seq<Op>, order: seq<Pid>)
    requires Distinct(order) && forall p :: p in order <==> p in Perform(f, Start, ops).byPid
    ensures Unbroken(Shutdown(Perform(f, Start, ops), order).log)
  {
    var s := Perform(f, Start, ops);
    RunReports(f, ops);
    forall pid ensures !Watch(Shutdown(s, order).log, pid).phase.Broken? {
      assert ReportedAt(s, pid, Watch(s.log, pid));
      ShutdownReports(s.log, s.byPid, order, pid);
    }
  }

  lemma ReadOne(log: seq<Entry>, pid: Pid, k: nat)
    requires k < |log|
    ensures Watch(log[..k + 1], pid) == Advance(Watch(log[..k], pid), log[k], pid)
  {
    assert log[..k + 1] == log[..k] + [log[k]];
    Append(log[..k], log[k], pid);
  }

  /** A broken monitor stays broken, so an unbroken log is unbroken at every prefix. */
  lemma {:induction false} UnbrokenAt(log: seq<Entry>, pid: Pid, k: nat)
    requires k <= |log| && Unbroken(log)
    ensures !Watch(log[..k], pid).phase.Broken?
    decreases |log| - k
  {
    if k == |log| {
      assert log[..k] == log;
    } else {
      UnbrokenAt(log, pid, k + 1);
      ReadOne(log, pid, k);
    }
  }

  /** The only entry that ends each of these phases without breaking the monitor. */
  predicate Ends(phase: Phase, e: Entry, pid: Pid) {
    match phase
    case Pending => e.Load? && e.pid == pid
    case Live => e == Exit(pid)
    case Exited => e == Untracked(pid)
    case _ => true
  }

  lemma {:induction false} Stays(log: seq<Entry>, pid: Pid, phase: Phase, i: nat, j: nat)
    requires i <= j <= |log| && Unbroken(log)
    requires Watch(log[..i], pid).phase == phase
    requires forall k :: i <= k < j ==> !Ends(phase, log[k], pid)
    ensures Watch(log[..j], pid).phase == phase
    decreases j
  {
    if i < j {
      Stays(log, pid, phase, i, j - 1);
      ReadOne(log, pid, j - 1);
      UnbrokenAt(log, pid, j);
    }
  }

  predicate Report(e: Entry, pid: Pid) {
    match e
    case Init(p, _) => p == pid
    case Exit(p) => p == pid
    case _ => false
  }

  /** After a successful load, the next init or exit report of the process is its exit. */
  lemma NoInitWhileLive(log: seq<Entry>, pid: Pid, i: nat, j: nat)
    requires Unbroken(log) && i < j < |log|
    requires log[i] == Load(pid, true) && log[j].Init? && log[j].pid == pid
    ensures exists k :: i < k < j && log[k] == Exit(pid)
  {
    if forall k :: i < k < j ==> log[k] != Exit(pid) {
      ReadOne(log, pid, i);
      UnbrokenAt(log, pid, i + 1);
      Stays(log, pid, Live, i + 1, j);
      ReadOne(log, pid, j);
      UnbrokenAt(log, pid, j + 1);
      assert false;
    }
  }

  /** A successful init is followed by a load report before anything else is reported for the process. */
  lemma InitThenLoad(log: seq<Entry>, pid: Pid, i: nat, j: nat)
    requires Unbroken(log) && i < j < |log|
    requires log[i] == Init(pid, true) && Report(log[j], pid)
    ensures exists k :: i < k < j && log[k].Load? && log[k].pid == pid
  {
    if forall k :: i < k < j ==> !(log[k].Load? && log[k].pid == pid) {
      ReadOne(log, pid, i);
      UnbrokenAt(log, pid, i + 1);
      Stays(log, pid, Pending, i + 1, j);
      ReadOne(log, pid, j);
      UnbrokenAt(log, pid, j + 1);
      assert false;
    }
  }

  /** Between an exit report and the next report of the process, its tracking episode has ended. */
  lemma OneExitPerEpisode(log: seq<Entry>, pid: Pid, i: nat, j: nat)
    requires Unbroken(log) && i < j < |log|
    requires log[i] == Exit(pid) && Report(log[j], pid)
    ensures exists k :: i < k < j && log[k] == Untracked(pid)
  {
    if forall k :: i < k < j ==> log[k] != Untracked(pid) {
      ReadOne(log, pid, i);
      UnbrokenAt(log, pid, i + 1);
      Stays(log, pid, Exited, i + 1, j);
      ReadOne(log, pid, j);
      UnbrokenAt(log, pid, j + 1);
      assert false;
    }
  }

  /** A record leaves the table only after its exit was reported in the same episode. */
  lemma {:induction false} ExitBeforeUntracked(log: seq<Entry>, pid: Pid, j: nat)
    requires Unbroken(log) && j <= |log| && Watch(log[..j], pid).phase == Exited
    ensures exists i :: 0 <= i < j && log[i] == Exit(pid) && forall k :: i < k < j ==> log[k] != Untracked(pid)
    decreases j
  {
    if j != 0 {
      ReadOne(log, pid, j - 1);
      if log[j - 1] != Exit(pid) {
        ExitBeforeUntracked(log, pid, j - 1);
        var i :| 0 <= i < j - 1 && log[i] == Exit(pid) && forall k :: i < k < j - 1 ==> log[k] != Untracked(pid);
        assert log[j - 1] != Untracked(pid);
      }
    }
  }

  lemma UntrackedAfterExit(log: seq<Entry>, pid: Pid, j: nat)
    requires Unbroken(log) && j < |log| && log[j] == Untracked(pid)
    ensures exists i :: 0 <= i < j && log[i] == Exit(pid) && forall k :: i < k < j ==> log[k] != Untracked(pid)
  {
    ReadOne(log, pid, j);
    UnbrokenAt(log, pid, j + 1);
    ExitBeforeUntracked(log, pid, j);
  }

  /** A charged monitor stays charged until the episode ends. */
  lemma {:induction false} StaysCharged(log: seq<Entry>, pid: Pid, i: nat, j: nat)
    requires i <= j <= |log| && Watch(log[..i], pid).charged
    requires forall k :: i <= k < j ==> log[k] != Untracked(pid)
    ensures Watch(log[..j], pid).charged
    decreases j
  {
    if i < j {
      StaysCharged(log, pid, i, j - 1);
      ReadOne(log, pid, j - 1);
    }
  }

  /** The failed counter grows at most once per tracking episode, however often the process is retried. */
  lemma FailedOncePerEpisode(log: seq<Entry>, pid: Pid, i: nat, j: nat)
    requires Unbroken(log) && i < j < |log|
    requires log[i].Failed? && log[i].pid == pid && log[j].Failed? && log[j].pid == pid
    ensures exists k :: i < k < j && log[k] == Untracked(pid)
  {
    if forall k :: i < k < j ==> log[k] != Untracked(pid) {
      ReadOne(log, pid, i);
      UnbrokenAt(log, pid, i + 1);
      StaysCharged(log, pid, i + 1, j);
      ReadOne(log, pid, j);
      UnbrokenAt(log, pid, j + 1);
      assert false;
    }
  }

  /** A process once reported as initialized, or as failing to, stays tracked until its exit is reported. */
  lemma TrackedUntilExit(f: Factories, ops: seq<Op>, pid: Pid, i: nat)
    requires var log := Perform(f, Start, ops).log;
      i < |log| && log[i].Init? && log[i].pid == pid && forall k :: i < k < |log| ==> log[k] != Exit(pid)
    ensures pid in Perform(f, Start, ops).byPid
  {
    var s := Perform(f, Start, ops);
    RunReports(f, ops);
    RunUnbroken(f, ops);
    ReadOne(s.log, pid, i);
    UnbrokenAt(s.log, pid, i + 1);
    StaysReported(s.log, pid, i + 1, |s.log|);
    assert s.log[..|s.log|] == s.log;
    assert ReportedAt(s, pid, Watch(s.log, pid));
  }

  lemma {:induction false} StaysReported(log: seq<Entry>, pid: Pid, i: nat, j: nat)
    requires i <= j <= |log| && Unbroken(log)
    requires Watch(log[..i], pid).phase in {Pending, Trying, Live}
    requires forall k :: i <= k < j ==> log[k] != Exit(pid)
    ensures Watch(log[..j], pid).phase in {Pending, Trying, Live}
    decreases j
  {
    if i < j {
      StaysReported(log, pid, i, j - 1);
      ReadOne(log, pid, j - 1);
      UnbrokenAt(log, pid, j);
    }
  }
}
