/**
 What an attempt to instrument a process comes to (`instrumentation/manager.go`, tryInstrument), read off
 the record before and after and off what is reported of the process, for every answer of the environment;
 and what an instrument or retry request comes to for each process it concerns, in whatever order the
 request is walked.
 */
module InstrumentationOutcomes {
  import opened Wrappers
  import opened InstrumentationModel
  import opened InstrumentationIndexes

  function RecordOf(s: State, pid: Pid): Option<Details> {
    if pid in s.byPid then Some(s.byPid[pid]) else None
  }

  /** The reports and counter changes that name the process. */
  function About(log: seq<Entry>, pid: Pid): seq<Entry> {
    if log == [] then []
    else About(log[..|log| - 1], pid) + if Names(log[|log| - 1], pid) then [log[|log| - 1]] else []
  }

  predicate Names(e: Entry, pid: Pid) {
    match e
    case Loaded(_) => false
    case Closed(_) => false
    case Applied(_, _) => false
    case _ => e.pid == pid
  }

  /** How many of the generic factories load. */
  function Loading(outcomes: seq<Outcome>): nat { multiset(outcomes)[Loads] }

  predicate Resolved(a: Answers) {
    a.distribution.Some? && a.configGroup.Some? && a.processGroup.Some?
  }

  function FirstUnresolved(a: Answers): Error {
    if a.distribution.None? then NoDistribution
    else if a.configGroup.None? then NoConfigGroup
    else NoProcessGroup
  }

  /** A process is left alone that is live, or whose distribution is unknown or has no factory. */
  predicate LeftAlone(f: Factories, before: Option<Details>, lookup: Option<Distro>) {
    before.Some? && (before.value.distroInst.None? && lookup.Some? ==> lookup.value.name !in f.distros)
  }

  predicate HasFactory(f: Factories, a: Answers) {
    a.distribution.Some? && a.distribution.value.name in f.distros
  }

  /** The generic instrumentations afterwards: those of the record there is, or as many as load. */
  function Generics(f: Factories, before: Option<Details>, a: Answers): nat {
    if f.generics == 0 && !HasFactory(f, a) then 0
    else if before.Some? then |before.value.genericInsts| else Loading(a.generics)
  }

  /** What the environment gets to see of an attempt that reaches the factories. */
  function Seen(f: Factories, before: Option<Details>, after: Option<Details>, pid: Pid, a: Answers): seq<Entry>
    requires HasFactory(f, a) && after.Some? && (a.distro.Loads? ==> after.value.distroInst.Some?)
  {
    var failed := if before.None? then [Failed(pid, a.distribution.value)] else [];
    match a.distro
    case NotApplicable => [Init(pid, false)] + failed
    case CreateFailed => [Init(pid, false)] + failed
    case LoadFailed => [Init(pid, true), Load(pid, false)] + failed
    case Loads => [Init(pid, true), Load(pid, true), Up(pid, after.value.distroInst.value, a.distribution.value)]
  }

  /**
   How an attempt on resolved details ends. It takes a factory of the distribution or a generic
   instrumentation for the process to be tracked afterwards; its own instrumentation is live exactly if
   it loads, and only the distribution's factory is reported.
   */
  ghost predicate Ended(f: Factories, before: Option<Details>, after: Option<Details>, err: Option<Error>,
      seen: seq<Entry>, pid: Pid, pd: ProcessDetails, a: Answers)
    requires Resolved(a)
  {
    && (if HasFactory(f, a) || Generics(f, before, a) > 0 then
          && after.Some? && |after.value.genericInsts| == Generics(f, before, a)
          && (before.Some? ==> after.value.genericInsts == before.value.genericInsts)
          && after.value.pd == pd
          && Some(after.value.cg) == a.configGroup && Some(after.value.pg) == a.processGroup
          && (after.value.distroInst.Some? <==> HasFactory(f, a) && a.distro.Loads?)
          && seen == if HasFactory(f, a) then Seen(f, before, after, pid, a) else []
        else after == before && seen == [])
    && err ==
       if !HasFactory(f, a) then (if Generics(f, before, a) > 0 then None else Some(NoFactory))
       else match a.distro
         case Loads => None
         case LoadFailed => Some(LoadError)
         case _ => Some(InitError)
  }

  /** How any attempt ends. */
  ghost predicate Attempted(f: Factories, before: Option<Details>, after: Option<Details>, err: Option<Error>,
      seen: seq<Entry>, pid: Pid, pd: ProcessDetails, a: Answers)
  {
    if LeftAlone(f, before, a.tracked) then after == before && err == None && seen == []
    else if !Resolved(a) then after == before && err == Some(FirstUnresolved(a)) && seen == []
    else Ended(f, before, after, err, seen, pid, pd, a)
  }

  // ---------- reading logs ----------

  lemma {:induction false} AboutConcat(log: seq<Entry>, tail: seq<Entry>, pid: Pid)
    ensures About(log + tail, pid) == About(log, pid) + About(tail, pid)
  {
    if tail == [] {
      assert log + tail == log;
    } else {
      assert (log + tail)[..|log + tail| - 1] == log + tail[..|tail| - 1];
      AboutConcat(log, tail[..|tail| - 1], pid);
    }
  }

  lemma {:induction false} AboutNothing(tail: seq<Entry>, pid: Pid)
    requires forall e :: e in tail ==> !Names(e, pid)
    ensures About(tail, pid) == []
  {
    if tail != [] {
      assert tail == tail[..|tail| - 1] + [tail[|tail| - 1]];
      AboutNothing(tail[..|tail| - 1], pid);
    }
  }

  lemma {:induction false} AboutEverything(tail: seq<Entry>, pid: Pid)
    requires forall e :: e in tail ==> Names(e, pid)
    ensures About(tail, pid) == tail
  {
    if tail != [] {
      assert tail == tail[..|tail| - 1] + [tail[|tail| - 1]];
      AboutEverything(tail[..|tail| - 1], pid);
    }
  }

  lemma {:induction false} LoadedTailNames(insts: seq<Inst>, pid: Pid)
    ensures About(LoadedTail(insts), pid) == []
  {
    if insts != [] { LoadedTailNames(insts[..|insts| - 1], pid); }
  }

  lemma {:induction false} LoadsAreLoaded(outcomes: seq<Outcome>, next: Inst)
    ensures |LoadGenerics(outcomes, next).0| == Loading(outcomes)
  {
    if outcomes != [] {
      assert outcomes == outcomes[..|outcomes| - 1] + [outcomes[|outcomes| - 1]];
      LoadsAreLoaded(outcomes[..|outcomes| - 1], next);
    }
  }

  /** What is reported of the process while its own factory is tried. */
  lemma ReportsAbout(pid: Pid, inst: Inst, outcome: Outcome, p: Pid)
    ensures About(Reports(pid, inst, outcome), p) == if p != pid then [] else
      match outcome
      case NotApplicable => [Init(pid, false)]
      case CreateFailed => [Init(pid, false)]
      case LoadFailed => [Init(pid, true), Load(pid, false)]
      case Loads => [Init(pid, true), Load(pid, true)]
  {
    match outcome
    case LoadFailed => AboutConcat([Init(pid, true)], [Load(pid, false)], p);
    case Loads =>
      AboutConcat([Init(pid, true)], [Loaded(inst)], p);
      AboutConcat([Init(pid, true)] + [Loaded(inst)], [Load(pid, true)], p);
      assert Reports(pid, inst, outcome) == [Init(pid, true)] + [Loaded(inst)] + [Load(pid, true)];
    case _ =>
  }

  // ---------- one attempt ----------

  lemma GenericsAre(s: State, pid: Pid, outcomes: seq<Outcome>, p: Pid)
    ensures var (s1, generics) := AttachGenerics(s, pid, outcomes);
      && s1.byPid == s.byPid && About(s1.log, p) == About(s.log, p)
      && |generics| == (if pid in s.byPid then |s.byPid[pid].genericInsts| else Loading(outcomes))
      && (pid in s.byPid ==> generics == s.byPid[pid].genericInsts)
  {
    if pid !in s.byPid {
      var (insts, n) := LoadGenerics(outcomes, s.next);
      LoadsAreLoaded(outcomes, s.next);
      LoadedTailNames(insts, p);
      AboutConcat(s.log, LoadedTail(insts), p);
    }
  }

  lemma OwnFactoryAbout(s: State, pid: Pid, d: Details, distro: Distro, outcome: Outcome, p: Pid)
    ensures var t := AttachDistro(s, pid, d, distro, outcome).0;
      var d' := d.(distroInst := if outcome.Loads? then Some(s.next) else None);
      About(t.log, p) == About(s.log, p) + (About(Reports(pid, s.next, outcome), p) +
                           About(TrackTail(s, pid, d', Some(distro)), p))
  {
    var d' := d.(distroInst := if outcome.Loads? then Some(s.next) else None);
    var reports, tail := Reports(pid, s.next, outcome), TrackTail(s, pid, d', Some(distro));
    assert AttachDistro(s, pid, d, distro, outcome).0.log == s.log + reports + tail;
    AboutConcat(s.log, reports, p);
    AboutConcat(s.log + reports, tail, p);
  }

  lemma OwnFactoryEnds(f: Factories, s: State, pid: Pid, generics: seq<Inst>, pd: ProcessDetails, a: Answers)
    returns (seen: seq<Entry>)
    requires Resolved(a) && HasFactory(f, a) && |generics| == Generics(f, RecordOf(s, pid), a)
    requires pid in s.byPid ==> s.byPid[pid].genericInsts == generics && s.byPid[pid].distroInst.None?
    ensures var d := Details(None, generics, pd, a.configGroup.value, a.processGroup.value);
      var (t, err) := AttachDistro(s, pid, d, a.distribution.value, a.distro);
      && About(t.log, pid) == About(s.log, pid) + seen
      && Ended(f, RecordOf(s, pid), RecordOf(t, pid), err, seen, pid, pd, a)
  {
    var d := Details(None, generics, pd, a.configGroup.value, a.processGroup.value);
    var t := AttachDistro(s, pid, d, a.distribution.value, a.distro).0;
    OwnFactoryRecord(s, pid, d, a.distribution.value, a.distro);
    ReportsAbout(pid, s.next, a.distro, pid);
    seen := Seen(f, RecordOf(s, pid), RecordOf(t, pid), pid, a);
  }

  lemma OwnFactoryRecord(s: State, pid: Pid, d: Details, distro: Distro, outcome: Outcome)
    requires pid in s.byPid ==> s.byPid[pid].distroInst.None?
    ensures var t := AttachDistro(s, pid, d, distro, outcome).0;
      && RecordOf(t, pid) == Some(d.(distroInst := if outcome.Loads? then Some(s.next) else None))
      && About(t.log, pid) == About(s.log, pid) + (About(Reports(pid, s.next, outcome), pid) +
           if outcome.Loads? then [Up(pid, s.next, distro)]
           else if pid in s.byPid then [] else [Failed(pid, distro)])
  {
    OwnFactoryAbout(s, pid, d, distro, outcome, pid);
    TrackTailAbout(s, pid, d.(distroInst := if outcome.Loads? then Some(s.next) else None), distro, pid);
  }

  /** The counter change of tracking, for a process that was not live. */
  lemma TrackTailAbout(s: State, pid: Pid, d: Details, distro: Distro, p: Pid)
    requires pid in s.byPid ==> s.byPid[pid].distroInst.None?
    ensures About(TrackTail(s, pid, d, Some(distro)), p) ==
            if p != pid then []
            else if d.distroInst.Some? then [Up(pid, d.distroInst.value, distro)]
            else if pid in s.byPid then [] else [Failed(pid, distro)]
  {
    var tail := TrackTail(s, pid, d, Some(distro));
    assert tail == if d.distroInst.Some? then [Up(pid, d.distroInst.value, distro)]
                   else if pid in s.byPid then [] else [Failed(pid, distro)];
    if p == pid {
      AboutEverything(tail, p);
    } else {
      AboutNothing(tail, p);
    }
  }

  /** Every attempt ends as it should, and concerns no other process. */
  lemma AttemptEnds(f: Factories, s: State, pid: Pid, pd: ProcessDetails, a: Answers) returns (seen: seq<Entry>)
    ensures var (t, err) := TryInstrument(f, s, pid, pd, a);
      && About(t.log, pid) == About(s.log, pid) + seen
      && Attempted(f, RecordOf(s, pid), RecordOf(t, pid), err, seen, pid, pd, a)
  {
    seen := [];
    if !LeftAlone(f, RecordOf(s, pid), a.tracked) && Resolved(a) && (HasFactory(f, a) || f.generics != 0) {
      GenericsAre(s, pid, a.generics, pid);
      var (s1, generics) := AttachGenerics(s, pid, a.generics);
      if HasFactory(f, a) {
        seen := OwnFactoryEnds(f, s1, pid, generics, pd, a);
      } else {
        var d := Details(None, generics, pd, a.configGroup.value, a.processGroup.value);
        assert StartTrack(s1, pid, d, None).log == s1.log;
      }
    }
  }

  lemma OwnFactoryOthers(s: State, pid: Pid, d: Details, distro: Distro, outcome: Outcome, p: Pid)
    requires p != pid && (pid in s.byPid ==> s.byPid[pid].distroInst.None?)
    ensures var t := AttachDistro(s, pid, d, distro, outcome).0;
      RecordOf(t, p) == RecordOf(s, p) && About(t.log, p) == About(s.log, p)
  {
    OwnFactoryAbout(s, pid, d, distro, outcome, p);
    ReportsAbout(pid, s.next, outcome, p);
    TrackTailAbout(s, pid, d.(distroInst := if outcome.Loads? then Some(s.next) else None), distro, p);
  }

  lemma OthersUntouched(f: Factories, s: State, pid: Pid, pd: ProcessDetails, a: Answers, p: Pid)
    requires p != pid
    ensures var t := TryInstrument(f, s, pid, pd, a).0;
      RecordOf(t, p) == RecordOf(s, p) && About(t.log, p) == About(s.log, p)
  {
    if TryInstrument(f, s, pid, pd, a).0 != s {
      GenericsAre(s, pid, a.generics, p);
      var (s1, generics) := AttachGenerics(s, pid, a.generics);
      var d := Details(None, generics, pd, a.configGroup.value, a.processGroup.value);
      TriedOneOf(f, s, pid, pd, a);
      OwnFactoryOthers(s1, pid, d, a.distribution.value, a.distro, p);
    }
  }

  lemma TriedOneOf(f: Factories, s: State, pid: Pid, pd: ProcessDetails, a: Answers)
    requires TryInstrument(f, s, pid, pd, a).0 != s
    ensures Resolved(a) && (pid in s.byPid ==> s.byPid[pid].distroInst.None?)
    ensures var t, (s1, generics) := TryInstrument(f, s, pid, pd, a).0, AttachGenerics(s, pid, a.generics);
      var d := Details(None, generics, pd, a.configGroup.value, a.processGroup.value);
      || t == s1
      || (t.log == s1.log && t.byPid == s1.byPid[pid := d])
      || t == AttachDistro(s1, pid, d, a.distribution.value, a.distro).0
  {
  }

  lemma SomeLoads(outcomes: seq<Outcome>)
    ensures Loading(outcomes) > 0 <==> exists k :: 0 <= k < |outcomes| && outcomes[k].Loads?
  {
    if Loading(outcomes) > 0 {
      assert Loads in outcomes;
    }
    if k :| 0 <= k < |outcomes| && outcomes[k].Loads? {
      assert outcomes[k] in multiset(outcomes);
    }
  }

  /** How the first attempt on resolved details ends. */
  ghost predicate FirstEnd(
      f: Factories, after: Option<Details>, err: Option<Error>, seen: seq<Entry>, pid: Pid, a: Answers)
    requires Resolved(a)
  {
    var distro := a.distribution.value;
    && (after.Some? <==> distro.name in f.distros || exists k :: 0 <= k < |a.generics| && a.generics[k].Loads?)
    && (after.Some? ==>
          && |after.value.genericInsts| == Loading(a.generics)
          && (after.value.distroInst.Some? <==> distro.name in f.distros && a.distro.Loads?))
    && (err.None? <==> after.Some? && (after.value.distroInst.Some? || distro.name !in f.distros))
    && (err == Some(NoFactory) <==> after.None?)
    && multiset(seen)[Failed(pid, distro)] == if distro.name in f.distros && !a.distro.Loads? then 1 else 0
  }

  lemma FirstEnds(f: Factories, after: Option<Details>, err: Option<Error>, seen: seq<Entry>,
      pid: Pid, pd: ProcessDetails, a: Answers)
    requires Resolved(a) && |a.generics| == f.generics && Attempted(f, None, after, err, seen, pid, pd, a)
    ensures FirstEnd(f, after, err, seen, pid, a)
  {
    SomeLoads(a.generics);
  }

  /**
   The first attempt on a process whose details resolve. It is tracked from then on if its distribution has
   a factory, which may fail, or some generic factory loads; there is no error if its own instrumentation
   is live, or it is tracked without a factory of its own; and a failing factory is counted at once.
   */
  lemma FirstAttempt(f: Factories, s: State, pid: Pid, pd: ProcessDetails, a: Answers)
    requires pid !in s.byPid && Resolved(a) && |a.generics| == f.generics
    ensures var (t, err) := TryInstrument(f, s, pid, pd, a);
      exists seen :: About(t.log, pid) == About(s.log, pid) + seen && FirstEnd(f, RecordOf(t, pid), err, seen, pid, a)
  {
    var seen := AttemptEnds(f, s, pid, pd, a);
    FirstEnds(f, RecordOf(TryInstrument(f, s, pid, pd, a).0, pid), TryInstrument(f, s, pid, pd, a).1, seen, pid, pd, a);
  }
}
