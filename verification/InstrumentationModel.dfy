/**
 What the eBPF instrumentation manager does to its tables and to the outside world, one
 function per method of `instrumentation/manager.go`.

 Factories, `Load`, `Distribution`, `ConfigGroup` and `ProcessGroup` belong to the environment:
 every call the manager makes to them appears here as an answer carried by the operation. The log
 records, in order, everything the environment sees: loads and closes of instrumentations, the
 reports, and the changes of the two counters.
 */
module InstrumentationModel {
  import opened Wrappers

  datatype Pid = Pid(number: int)
  type Inst = int
  type ConfigGroup = string
  type ProcessGroup = string
  type ProcessDetails = string
  type Config = string

  /** The part of an OpenTelemetry distribution the manager looks at; both fields label the metrics. */
  datatype Distro = Distro(name: string, language: string)

  /** The record kept for a tracked process. Records are never changed once made. */
  datatype Details = Details(
    distroInst: Option<Inst>,
    genericInsts: seq<Inst>,
    pd: ProcessDetails,
    cg: ConfigGroup,
    pg: ProcessGroup)
  {
    /** The instrumentations the record owns, in the order they are closed. */
    function Insts(): seq<Inst> {
      (if distroInst.Some? then [distroInst.value] else []) + genericInsts
    }
  }

  /** How a factory and the instrumentation it made answered. */
  datatype Outcome = NotApplicable | CreateFailed | LoadFailed | Loads

  datatype Entry =
    | Loaded(inst: Inst)                    // Load succeeded
    | Closed(inst: Inst)                    // Close was called
    | Applied(inst: Inst, config: Config)   // ApplyConfig was called
    | Init(pid: Pid, ok: bool)              // Reporter.OnInit
    | Load(pid: Pid, ok: bool)              // Reporter.OnLoad
    | Exit(pid: Pid)                        // Reporter.OnExit
    | Untracked(pid: Pid)                   // the record left the table: the tracking episode ended
    | Failed(pid: Pid, distro: Distro)       // failedInstrumentations.Add(1)
    | Up(pid: Pid, inst: Inst, distro: Distro)    // instrumentedProcesses.Add(1)
    | Down(pid: Pid, inst: Inst, distro: Distro)  // instrumentedProcesses.Add(-1)

  type Table = map<Pid, Details>

  datatype State = State(
    byPid: Table,
    byConfig: map<ConfigGroup, Table>,
    byProcess: map<ProcessGroup, Table>,
    next: Inst,             // instrumentations made so far are below this
    log: seq<Entry>,
    panicked: Option<Pid>)  // set when a nil distribution was dereferenced while cleaning this pid

  const Start := State(map[], map[], map[], 0, [], None)

  /** The registered factories: which distributions have one, and how many generic ones there are. */
  datatype Factories = Factories(distros: set<string>, generics: nat)

  /** What the environment answers while one process is being instrumented. */
  datatype Answers = Answers(
    tracked: Option<Distro>,        // Distribution of the details already tracked, if any
    distribution: Option<Distro>,   // Distribution of the new details
    configGroup: Option<ConfigGroup>,
    processGroup: Option<ProcessGroup>,
    generics: seq<Outcome>,         // one per generic factory, in iteration order
    distro: Outcome)

  datatype Error = NoDistribution | NoConfigGroup | NoProcessGroup | NoFactory | InitError | LoadError

  // ---------- group indexes ----------

  function Inner<K>(index: map<K, Table>, k: K): Table {
    if k in index then index[k] else map[]
  }

  function Insert<K>(index: map<K, Table>, k: K, pid: Pid, d: Details): map<K, Table> {
    index[k := Inner(index, k)[pid := d]]
  }

  function Delete<K>(index: map<K, Table>, k: K, pid: Pid): map<K, Table> {
    var rest := Inner(index, k) - {pid};
    if rest == map[] then index - {k} else index[k := rest]
  }

  // ---------- log tails ----------

  function LoadedTail(insts: seq<Inst>): seq<Entry> {
    if insts == [] then [] else LoadedTail(insts[..|insts| - 1]) + [Loaded(insts[|insts| - 1])]
  }

  function ClosedTail(insts: seq<Inst>): seq<Entry> {
    if insts == [] then [] else ClosedTail(insts[..|insts| - 1]) + [Closed(insts[|insts| - 1])]
  }

  function AppliedTail(insts: seq<Inst>, config: Config): seq<Entry> {
    if insts == [] then [] else AppliedTail(insts[..|insts| - 1], config) + [Applied(insts[|insts| - 1], config)]
  }

  // ---------- operations ----------

  /** The generic instrumentations that load, numbered from `next`, and the next free number. */
  function LoadGenerics(outcomes: seq<Outcome>, next: Inst): (seq<Inst>, Inst) {
    if outcomes == [] then ([], next)
    else
      var (insts, n) := LoadGenerics(outcomes[..|outcomes| - 1], next);
      match outcomes[|outcomes| - 1]
      case NotApplicable => (insts, n)
      case CreateFailed => (insts, n)
      case LoadFailed => (insts, n + 1)
      case Loads => (insts + [n], n + 1)
  }

  /** The counter change that goes with tracking `d`; none without a distribution. */
  function TrackTail(s: State, pid: Pid, d: Details, distribution: Option<Distro>): seq<Entry> {
    var hadPrev := pid in s.byPid;
    var prevHadInst := hadPrev && s.byPid[pid].distroInst.Some?;
    if distribution.None? then []
    else if d.distroInst.None? && !hadPrev then [Failed(pid, distribution.value)]
    else if d.distroInst.Some? && !prevHadInst then [Up(pid, d.distroInst.value, distribution.value)]
    else []
  }

  function StartTrack(s: State, pid: Pid, d: Details, distribution: Option<Distro>): State {
    s.(byPid := s.byPid[pid := d],
       byConfig := Insert(s.byConfig, d.cg, pid, d),
       byProcess := Insert(s.byProcess, d.pg, pid, d),
       log := s.log + TrackTail(s, pid, d, distribution))
  }

  function StopTrack(s: State, pid: Pid): State {
    if pid !in s.byPid then s
    else
      var d := s.byPid[pid];
      s.(byPid := s.byPid - {pid},
         byConfig := Delete(s.byConfig, d.cg, pid),
         byProcess := Delete(s.byProcess, d.pg, pid),
         log := s.log + [Untracked(pid)])
  }

  /** Closing a record's instrumentations and reporting the exit. */
  function CleanTail(pid: Pid, d: Details, lookup: Option<Distro>): seq<Entry>
    requires d.distroInst.Some? ==> lookup.Some?
  {
    (if d.distroInst.Some? then [Closed(d.distroInst.value), Down(pid, d.distroInst.value, lookup.value)] else [])
    + ClosedTail(d.genericInsts) + [Exit(pid)]
  }

  /** `lookup` is what the record's `Distribution` answers; a failed lookup is dereferenced all the same. */
  function Clean(s: State, pid: Pid, lookup: Option<Distro>): State {
    if pid !in s.byPid then s
    else
      var d := s.byPid[pid];
      if d.distroInst.Some? && lookup.None? then
        s.(log := s.log + [Closed(d.distroInst.value)], panicked := Some(pid))
      else
        StopTrack(s.(log := s.log + CleanTail(pid, d, lookup)), pid)
  }

  predicate IsInstrumented(f: Factories, s: State, pid: Pid, lookup: Option<Distro>) {
    pid in s.byPid &&
    (s.byPid[pid].distroInst.Some? || lookup.None? || lookup.value.name !in f.distros)
  }

  /** The generic instrumentations of the new record: carried over if tracked, loaded otherwise. */
  function AttachGenerics(s: State, pid: Pid, outcomes: seq<Outcome>): (State, seq<Inst>) {
    if pid in s.byPid then (s, s.byPid[pid].genericInsts)
    else
      var (insts, n) := LoadGenerics(outcomes, s.next);
      (s.(next := n, log := s.log + LoadedTail(insts)), insts)
  }

  /** What the distribution's own factory leads to, in order; `inst` is the instrumentation it makes. */
  function Reports(pid: Pid, inst: Inst, outcome: Outcome): seq<Entry> {
    match outcome
    case NotApplicable => [Init(pid, false)]
    case CreateFailed => [Init(pid, false)]
    case LoadFailed => [Init(pid, true), Load(pid, false)]
    case Loads => [Init(pid, true), Loaded(inst), Load(pid, true)]
  }

  /** The distribution's own factory: create, report, load, report, and track even on failure. */
  function AttachDistro(s: State, pid: Pid, d: Details, distro: Distro, outcome: Outcome): (State, Option<Error>) {
    var created := outcome.LoadFailed? || outcome.Loads?;
    var s1 := s.(next := if created then s.next + 1 else s.next, log := s.log + Reports(pid, s.next, outcome));
    (StartTrack(s1, pid, d.(distroInst := if outcome.Loads? then Some(s.next) else None), Some(distro)),
     if outcome.Loads? then None else if created then Some(LoadError) else Some(InitError))
  }

  function TryInstrument(f: Factories, s: State, pid: Pid, pd: ProcessDetails, a: Answers): (State, Option<Error>) {
    if IsInstrumented(f, s, pid, a.tracked) then (s, None)
    else if a.distribution.None? then (s, Some(NoDistribution))
    else if a.configGroup.None? then (s, Some(NoConfigGroup))
    else if a.processGroup.None? then (s, Some(NoProcessGroup))
    else
      var hasFactory := a.distribution.value.name in f.distros;
      if !hasFactory && f.generics == 0 then (s, Some(NoFactory))
      else
        var (s1, generics) := AttachGenerics(s, pid, a.generics);
        var d := Details(None, generics, pd, a.configGroup.value, a.processGroup.value);
        if hasFactory then AttachDistro(s1, pid, d, a.distribution.value, a.distro)
        else if generics == [] then (s1, Some(NoFactory))
        else (StartTrack(s1, pid, d, None), None)
  }

  /** Delivers a configuration to the processes of one config group, in the given order. */
  function ApplyInOrder(table: Table, order: seq<Pid>, config: Config): seq<Entry>
    requires forall p :: p in order ==> p in table
  {
    if order == [] then []
    else
      var last := order[|order| - 1];
      ApplyInOrder(table, order[..|order| - 1], config) + AppliedTail(table[last].Insts(), config)
  }

  /** The steps every event of the loop is made of. */
  datatype Op =
    | Attempt(pid: Pid, pd: ProcessDetails, answers: Answers)
    | Guarded(pid: Pid, pd: ProcessDetails, precheck: Option<Distro>, answers: Answers)
    | Cleanup(pid: Pid, lookup: Option<Distro>)
    | Configure(cg: ConfigGroup, config: Config, order: seq<Pid>)

  /** A panicking manager does nothing more until its deferred shutdown. */
  function Step(f: Factories, s: State, op: Op): State {
    if s.panicked.Some? then s
    else match op
      case Attempt(pid, pd, a) => TryInstrument(f, s, pid, pd, a).0
      case Guarded(pid, pd, precheck, a) =>
        if IsInstrumented(f, s, pid, precheck) then s else TryInstrument(f, s, pid, pd, a).0
      case Cleanup(pid, lookup) => Clean(s, pid, lookup)
      case Configure(cg, config, order) =>
        if (forall p :: p in order ==> p in Inner(s.byConfig, cg))
        then s.(log := s.log + ApplyInOrder(Inner(s.byConfig, cg), order, config)) else s
  }

  function Perform(f: Factories, s: State, ops: seq<Op>): State {
    if ops == [] then s else Step(f, Perform(f, s, ops[..|ops| - 1]), ops[|ops| - 1])
  }

  lemma {:induction false} PerformConcat(f: Factories, s: State, a: seq<Op>, b: seq<Op>)
    ensures Perform(f, s, a + b) == Perform(f, Perform(f, s, a), b)
  {
    if b == [] {
      assert a + b == a;
    } else {
      assert (a + b)[..|a + b| - 1] == a + b[..|b| - 1];
      PerformConcat(f, s, a, b[..|b| - 1]);
    }
  }

  lemma PerformSnoc(f: Factories, s: State, ops: seq<Op>, op: Op)
    ensures Perform(f, s, ops + [op]) == Step(f, Perform(f, s, ops), op)
  {
  }

  lemma PerformOne(f: Factories, s: State, op: Op)
    ensures Perform(f, s, [op]) == Step(f, s, op)
  {
  }

  /** The state after one process, of a distribution with a factory, was loaded into an empty manager. */
  function OneLoaded(pid: Pid, pd: ProcessDetails, distro: Distro): State {
    var d := Details(Some(0), [], pd, "cg", "pg");
    State(map[pid := d], map["cg" := map[pid := d]], map["pg" := map[pid := d]], 1,
          [Init(pid, true), Loaded(0), Load(pid, true), Up(pid, 0, distro)], None)
  }

  function LoadOne(pid: Pid, pd: ProcessDetails, distro: Distro): Op {
    Attempt(pid, pd, Answers(None, Some(distro), Some("cg"), Some("pg"), [], Loads))
  }

  lemma OneLoads(pid: Pid, pd: ProcessDetails, distro: Distro)
    ensures Perform(Factories({distro.name}, 0), Start, [LoadOne(pid, pd, distro)]) == OneLoaded(pid, pd, distro)
  {
  }

  /** The deferred shutdown: close everything still tracked and report the exits. */
  function CloseInOrder(table: Table, order: seq<Pid>): seq<Entry>
    requires forall p :: p in order ==> p in table
  {
    if order == [] then []
    else
      var last := order[|order| - 1];
      CloseInOrder(table, order[..|order| - 1]) + (ClosedTail(table[last].Insts()) + [Exit(last)])
  }

  function Shutdown(s: State, order: seq<Pid>): State
    requires forall p :: p in order ==> p in s.byPid
  {
    s.(byPid := map[], byConfig := map[], byProcess := map[], log := s.log + CloseInOrder(s.byPid, order))
  }
}
