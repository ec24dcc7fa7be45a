/**
 What instrument and retry requests come to (`instrumentation/manager.go`, instrumentFromDetails and
 retryFailedInstrumentationsForDistros) for each single process, whatever else the request concerns and
 in whatever order it is walked.
 */
module InstrumentationRequests {
  import opened Wrappers
  import opened InstrumentationModel
  import opened InstrumentationIndexes
  import opened InstrumentationOutcomes
  import opened InstrumentationManager

  /** The attempt on one requested process: none if it counts as instrumented, and a whole one otherwise. */
  ghost predicate Requested(
      f: Factories, before: Option<Details>, after: Option<Details>, seen: seq<Entry>, pid: Pid, job: Job) {
    if LeftAlone(f, before, job.precheck) then after == before && seen == []
    else exists err :: Attempted(f, before, after, err, seen, pid, job.pd, job.answers)
  }

  lemma GuardedEnds(f: Factories, s: State, pid: Pid, job: Job) returns (seen: seq<Entry>)
    requires s.panicked.None?
    ensures var t := Step(f, s, Guarded(pid, job.pd, job.precheck, job.answers));
      && t.panicked.None?
      && About(t.log, pid) == About(s.log, pid) + seen
      && Requested(f, RecordOf(s, pid), RecordOf(t, pid), seen, pid, job)
  {
    seen := [];
    if !LeftAlone(f, RecordOf(s, pid), job.precheck) {
      seen := AttemptEnds(f, s, pid, job.pd, job.answers);
      GuardedTries(f, s, pid, job);
      var (t, err) := TryInstrument(f, s, pid, job.pd, job.answers);
      assert Attempted(f, RecordOf(s, pid), RecordOf(t, pid), err, seen, pid, job.pd, job.answers);
    }
  }

  lemma GuardedTries(f: Factories, s: State, pid: Pid, job: Job)
    requires s.panicked.None? && !LeftAlone(f, RecordOf(s, pid), job.precheck)
    ensures Step(f, s, Guarded(pid, job.pd, job.precheck, job.answers)) ==
              TryInstrument(f, s, pid, job.pd, job.answers).0
    ensures TryInstrument(f, s, pid, job.pd, job.answers).0.panicked.None?
  {
  }

  lemma GuardedLeavesOthers(f: Factories, s: State, pid: Pid, job: Job, p: Pid)
    requires s.panicked.None? && p != pid
    ensures var t := Step(f, s, Guarded(pid, job.pd, job.precheck, job.answers));
      RecordOf(t, p) == RecordOf(s, p) && About(t.log, p) == About(s.log, p)
  {
    OthersUntouched(f, s, pid, job.pd, job.answers, p);
  }

  /** What the attempts made so far come to for a process that is, or is not, among those walked. */
  ghost predicate Walked(
      f: Factories, s: State, t: State, seen: seq<Entry>, walked: bool, p: Pid, jobs: map<Pid, Job>) {
    && t.panicked.None? && About(t.log, p) == About(s.log, p) + seen
    && (if walked then p in jobs && Requested(f, RecordOf(s, p), RecordOf(t, p), seen, p, jobs[p])
        else RecordOf(t, p) == RecordOf(s, p) && seen == [])
  }

  lemma WalkOne(f: Factories, s: State, t: State, seen: seq<Entry>, walked: bool, p: Pid, jobs: map<Pid, Job>,
      last: Pid) returns (more: seq<Entry>)
    requires Walked(f, s, t, seen, walked, p, jobs) && last in jobs && (p == last ==> !walked)
    ensures var u := Step(f, t, Guarded(last, jobs[last].pd, jobs[last].precheck, jobs[last].answers));
      Walked(f, s, u, more, walked || p == last, p, jobs)
  {
    more := GuardedEnds(f, t, last, jobs[last]);
    if p != last {
      more := seen;
      GuardedLeavesOthers(f, t, last, jobs[last], p);
    }
  }

  /** Every process of a request gets its own attempt, once, and no other process is concerned. */
  lemma {:induction false} EachIsAttempted(f: Factories, s: State, order: seq<Pid>, jobs: map<Pid, Job>, p: Pid)
    returns (seen: seq<Entry>)
    requires s.panicked.None? && Distinct(order) && forall q :: q in order ==> q in jobs
    ensures Walked(f, s, Perform(f, s, Attempts(order, jobs)), seen, p in order, p, jobs)
  {
    seen := [];
    if order != [] {
      var front, last := order[..|order| - 1], order[|order| - 1];
      assert order == front + [last];
      seen := EachIsAttempted(f, s, front, jobs, p);
      LastIsAttempted(f, s, front, last, jobs);
      seen := WalkOne(f, s, Perform(f, s, Attempts(front, jobs)), seen, p in front, p, jobs, last);
    }
  }

  lemma LastIsAttempted(f: Factories, s: State, front: seq<Pid>, last: Pid, jobs: map<Pid, Job>)
    requires last in jobs && forall q :: q in front ==> q in jobs
    ensures forall q :: q in front + [last] ==> q in jobs
    ensures var job := jobs[last];
      Perform(f, s, Attempts(front + [last], jobs)) ==
        Step(f, Perform(f, s, Attempts(front, jobs)), Guarded(last, job.pd, job.precheck, job.answers))
  {
    assert (front + [last])[..|front|] == front;
    PerformSnoc(f, s, Attempts(front, jobs), Guarded(last, jobs[last].pd, jobs[last].precheck, jobs[last].answers));
  }

  /** An instrument request attempts exactly the processes it names that do not count as instrumented. */
  lemma InstrumentRequestIs(f: Factories, s: State, jobs: map<Pid, Job>, ops: seq<Op>, p: Pid)
    returns (seen: seq<Entry>)
    requires s.panicked.None? && Handles(f, s, Instrument(jobs), ops)
    ensures var t := Perform(f, s, ops);
      && About(t.log, p) == About(s.log, p) + seen
      && (if p in jobs then Requested(f, RecordOf(s, p), RecordOf(t, p), seen, p, jobs[p])
          else RecordOf(t, p) == RecordOf(s, p) && seen == [])
  {
    var order: seq<Pid> :| Distinct(order) && Elements(order) == jobs.Keys && ops == Attempts(order, jobs);
    assert forall q :: q in order <==> q in Elements(order);
    seen := EachIsAttempted(f, s, order, jobs, p);
  }

  // ---------- retrying ----------

  /** The process failed, is wanted, and nothing the environment answers stands in the way. */
  predicate Retriable(f: Factories, s: State, wanted: set<string>, r: Retry, p: Pid) {
    && p in s.byPid && s.byPid[p].distroInst.None?
    && (wanted == {} || (r.filter.Some? && r.filter.value.name in wanted))
    && r.precheck.Some? && r.precheck.value.name in f.distros
    && r.answers.tracked.Some? && r.answers.tracked.value.name in f.distros
    && r.answers.distribution.Some? && r.answers.distribution.value.name in f.distros
    && r.answers.configGroup.Some? && r.answers.processGroup.Some?
  }

  lemma {:induction false} InitsAreAbout(log: seq<Entry>, p: Pid)
    ensures Inits(log, p) == Inits(About(log, p), p)
  {
    if log != [] {
      assert log == log[..|log| - 1] + [log[|log| - 1]];
      InitsAreAbout(log[..|log| - 1], p);
    }
  }

  lemma InitsMore(log: seq<Entry>, seen: seq<Entry>, p: Pid)
    ensures Inits(log + seen, p) == Inits(log, p) + Inits(seen, p)
  {
  }

  /**
   A retry request attempts a process, once, if and only if it has failed, is wanted, and its distribution
   and groups can be resolved to something with a factory; it is live afterwards exactly if it was live or
   is attempted and loads.
   */
  lemma RetryIs(f: Factories, s: State, wanted: set<string>, env: Pid -> Retry, ops: seq<Op>, p: Pid)
    requires s.panicked.None? && Handles(f, s, RetryFailed(wanted, env), ops)
    ensures var t := Perform(f, s, ops);
      && Inits(t.log, p) == Inits(s.log, p) + (if Retriable(f, s, wanted, env(p), p) then 1 else 0)
      && (p in t.byPid <==> p in s.byPid)
      && (p in s.byPid ==>
            (t.byPid[p].distroInst.Some? <==>
              s.byPid[p].distroInst.Some? ||
              (Retriable(f, s, wanted, env(p), p) && env(p).answers.distro.Loads?)))
  {
    var order: seq<Pid> :| Distinct(order) && Elements(order) == FailedPids(s, wanted, env) &&
      (forall q :: q in order ==> q in s.byPid) && ops == Retries(s, order, env);
    assert forall q :: q in order <==> q in Elements(order);
    var jobs := map q | q in s.byPid :: Job(s.byPid[q].pd, env(q).precheck, env(q).answers);
    RetriesAreAttempts(s, order, env, jobs);
    var seen := EachIsAttempted(f, s, order, jobs, p);
    var t := Perform(f, s, ops);
    InitsAreAbout(s.log, p);
    InitsAreAbout(t.log, p);
    InitsMore(About(s.log, p), seen, p);
    if p in order {
      RetriedOnce(f, RecordOf(s, p), RecordOf(t, p), seen, p, jobs[p]);
    }
  }

  /** The attempt on a process that has failed. */
  lemma RetriedOnce(
      f: Factories, before: Option<Details>, after: Option<Details>, seen: seq<Entry>, p: Pid, job: Job)
    requires Requested(f, before, after, seen, p, job) && before.Some? && before.value.distroInst.None?
    ensures var a, attempted := job.answers, !LeftAlone(f, before, job.precheck) &&
              !LeftAlone(f, before, job.answers.tracked) && Resolved(job.answers) && HasFactory(f, job.answers);
      && Inits(seen, p) == (if attempted then 1 else 0)
      && after.Some? && (after.value.distroInst.Some? <==> attempted && a.distro.Loads?)
  {
  }
}
