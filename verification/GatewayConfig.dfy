/**
 The gateway configuration (`common/pipelinegen/config_builder.go`), stage by stage, and what holds of
 the pipelines it compiles to. `GatewayBuilder` carries the stages out.
 */
module GatewayConfig {
  import opened Wrappers
  import opened CollectorConfig
  import opened CrdProcessors
  import opened TracesSplit
  import opened DestinationWiring
  import opened DataStreamPipelines

  /** The options that decide which components there are; None stands for a nil pointer. */
  datatype Options = Options(
    serviceGraphDisabled: Option<bool>,
    clusterMetrics: Option<bool>,
    configExtension: Option<Name>,
    tailSampling: Option<bool>,
    serviceIO: Option<bool>,
    insights: Option<bool>,
    insightsEndpoint: string)

  predicate On(o: Option<bool>) { o == Some(true) }

  predicate TraceAggregationNeeded(o: Options) {
    On(o.tailSampling) || On(o.serviceIO) || On(o.insights)
  }

  /** Adds the collector's own telemetry, given the destination pipelines and the root pipelines. */
  type SelfTelemetry = (Config, seq<Name>, seq<Name>) -> Result<Config, string>

  datatype Inputs = Inputs(
    dests: seq<Destination>,
    configurers: Configurers,
    processors: seq<Processor>,
    selfTelemetry: Option<SelfTelemetry>,
    streams: seq<DataStream>,
    options: Options)

  const BASIC_CONFIG := Config(
    map[OTLP := Opaque],
    map[],
    map[VERSION := Opaque, BATCH := Opaque],
    map["health_check" := Opaque, "pprof" := Opaque],
    map[],
    ["health_check", "pprof"],
    map[],
    NO_TELEMETRY)

  // ---------- stages ----------

  function WithProcessors(c: Config, defined: Components): Config {
    c.(processors := c.processors + defined)
  }

  /** Trace processors and configuration after groupbytrace has been put first, if it is not there. */
  function EnsureGroupByTrace(c: Config, traces: seq<Name>): (Config, seq<Name>) {
    if GROUP_BY_TRACE in traces then (c, traces)
    else (c.(processors := c.processors[GROUP_BY_TRACE := Opaque]), [GROUP_BY_TRACE] + traces)
  }

  function AddTailSampling(c: Config, traces: seq<Name>): (Config, seq<Name>) {
    (c.(processors := c.processors[TAIL_SAMPLING := Opaque]), [TAIL_SAMPLING] + traces)
  }

  /** The configuration and the trace processors before any destination is added. */
  function Prepared(crd: CrdProcessorResults, o: Options): (Config, seq<Name>) {
    var c := WithProcessors(BASIC_CONFIG, crd.processors);
    var (grouped, traces) :=
      if TraceAggregationNeeded(o) then EnsureGroupByTrace(c, crd.tracesProcessors) else (c, crd.tracesProcessors);
    if On(o.tailSampling) && o.configExtension.Some? then AddTailSampling(grouped, traces) else (grouped, traces)
  }

  function Wiring0(i: Inputs): Wiring {
    Unwired(Prepared(Sorted(i.processors), i.options).0)
  }

  function WiringOf(i: Inputs): Wiring {
    WireAll(Wiring0(i), i.configurers, i.dests)
  }

  /** The signals with a destination, and traces when insights taps them. */
  function Enabled(w: Wiring, o: Options): set<Signal> {
    w.signals + if On(o.insights) then {Traces} else {}
  }

  function WithTraceState(c: Config, enabled: set<Signal>): Config {
    if Traces in enabled then c.(processors := c.processors[TRACE_STATE := Opaque]) else c
  }

  /** What the root pipelines are made of. */
  datatype Plan = Plan(
    traces: seq<Name>, post: seq<Name>, metrics: seq<Name>, logs: seq<Name>, profiles: seq<Name>,
    enabled: set<Signal>, hasTracesDestination: bool, aggregated: bool)

  function PlanOf(i: Inputs): Plan {
    var crd, w := Sorted(i.processors), WiringOf(i);
    var enabled := Enabled(w, i.options);
    Plan(Prepared(crd, i.options).1,
         crd.tracesProcessorsPostSpanMetrics + (if Traces in enabled then [TRACE_STATE] else []),
         crd.metricsProcessors, crd.logsProcessors, crd.profilesProcessors,
         enabled, Traces in w.signals, TraceAggregationNeeded(i.options))
  }

  function RootPipeline(processors: seq<Name>, exporters: seq<Name>): Pipeline {
    Pipeline([OTLP], [VERSION] + processors, exporters)
  }

  /** The processors of the root of a signal that is not split. */
  function ProcessorsFor(plan: Plan, s: Signal): seq<Name> {
    match s
    case Traces => plan.traces + plan.post
    case Metrics => plan.metrics
    case Logs => plan.logs
    case Profiles => plan.profiles
  }

  function SingleRoot(plan: Plan, s: Signal): Pipelines {
    if s in plan.enabled then map[RootName(s) := RootPipeline(ProcessorsFor(plan, s), [Router(s)])] else map[]
  }

  function ExportingPipeline(plan: Plan): Pipeline {
    Pipeline([POST_GROUP_BY], Exporting(plan.traces) + plan.post, [Router(Traces)])
  }

  function TracesRoots(plan: Plan): Pipelines {
    if Traces !in plan.enabled then map[]
    else if !plan.aggregated then SingleRoot(plan, Traces)
    else if !plan.hasTracesDestination then map[RootName(Traces) := RootPipeline(StayIn(plan.traces), [])]
    else
      map[RootName(Traces) := RootPipeline(StayIn(plan.traces), [POST_GROUP_BY]), EXPORTING := ExportingPipeline(plan)]
  }

  function Roots(plan: Plan): Pipelines {
    TracesRoots(plan) + SingleRoot(plan, Metrics) + SingleRoot(plan, Logs) + SingleRoot(plan, Profiles)
  }

  function SingleRouter(plan: Plan, s: Signal): Components {
    if s in plan.enabled then map[Router(s) := Opaque] else map[]
  }

  function TracesConnectors(plan: Plan): Components {
    if Traces !in plan.enabled then map[]
    else if !plan.aggregated then SingleRouter(plan, Traces)
    else if !plan.hasTracesDestination then map[]
    else map[POST_GROUP_BY := Opaque, Router(Traces) := Opaque]
  }

  function RootConnectors(plan: Plan): Components {
    TracesConnectors(plan) + SingleRouter(plan, Metrics) + SingleRouter(plan, Logs) + SingleRouter(plan, Profiles)
  }

  function InsertRoots(c: Config, plan: Plan): Config {
    c.(connectors := c.connectors + RootConnectors(plan), pipelines := c.pipelines + Roots(plan))
  }

  function WithStreams(c: Config, forwards: map<string, seq<Name>>, streams: seq<DataStream>): Config {
    c.(pipelines := c.pipelines + OfStreams(forwards, streams))
  }

  /** The configuration when all root, stream and destination pipelines are there. */
  function Rooted(i: Inputs): Config {
    var w := WiringOf(i);
    InsertRoots(WithStreams(WithTraceState(w.config, Enabled(w, i.options)), w.forwards, i.streams), PlanOf(i))
  }

  function AddExporter(c: Config, name: Name, exporter: Name): Config {
    if name in c.pipelines then
      var p := c.pipelines[name];
      c.(pipelines := c.pipelines[name := p.(exporters := p.exporters + [exporter])])
    else c
  }

  function TracesPipelineForDownstreamConnectors(c: Config): Name {
    if EXPORTING in c.pipelines then EXPORTING else RootName(Traces)
  }

  /** One more job for the scraper of the collector's own metrics, if there is one. */
  function AddServiceGraphScrapeConfig(c: Config): Option<Config> {
    if SELF_METRICS in c.receivers && c.receivers[SELF_METRICS].Scraping? then
      Some(c.(receivers := c.receivers[SELF_METRICS := Scraping(c.receivers[SELF_METRICS].jobs + [SERVICE_GRAPH])]))
    else None
  }

  function ServiceGraphPipeline(insightsOn: bool): Pipeline {
    Pipeline([SERVICE_GRAPH],
             if insightsOn then [POD_NAME] else [],
             [SERVICE_GRAPH_EXPORTER] + if insightsOn then [INSIGHTS_EXPORTER] else [])
  }

  predicate InsightsOn(o: Options) { On(o.insights) && o.insightsEndpoint != "" }

  function WithInsights(c: Config): Config {
    c.(processors := if POD_NAME in c.processors then c.processors else c.processors[POD_NAME := Opaque],
       exporters := c.exporters[INSIGHTS_EXPORTER := Opaque])
  }

  function ExposeServiceGraph(c: Config): Config {
    c.(exporters := c.exporters[SERVICE_GRAPH_EXPORTER := Opaque])
  }

  function ConnectServiceGraph(c: Config): Config {
    c.(connectors := c.connectors[SERVICE_GRAPH := Opaque])
  }

  function PipeServiceGraph(c: Config, o: Options): Config {
    var ready := if InsightsOn(o) then WithInsights(c) else c;
    ready.(pipelines := ready.pipelines[SERVICE_GRAPH_PIPELINE := ServiceGraphPipeline(InsightsOn(o))])
  }

  function InsertServiceGraph(c: Config, o: Options): Config {
    match AddServiceGraphScrapeConfig(ExposeServiceGraph(c))
    case None => ExposeServiceGraph(c)
    case Some(scraped) =>
      var piped := PipeServiceGraph(ConnectServiceGraph(scraped), o);
      AddExporter(piped, TracesPipelineForDownstreamConnectors(piped), SERVICE_GRAPH)
  }

  function PipeServiceIO(c: Config): Config {
    c.(connectors := c.connectors[SERVICE_IO := Opaque],
       exporters := c.exporters[CORRELATIONS_EXPORTER := Opaque],
       pipelines := c.pipelines[CORRELATIONS_PIPELINE := Pipeline([SERVICE_IO], [], [CORRELATIONS_EXPORTER])])
  }

  function InsertServiceIO(c: Config, o: Options): Config {
    if !On(o.serviceIO) then c
    else
      var piped := PipeServiceIO(c);
      if RootName(Traces) in piped.pipelines && SERVICE_IO in piped.pipelines[RootName(Traces)].exporters then piped
      else AddExporter(piped, RootName(Traces), SERVICE_IO)
  }

  function InsertClusterMetrics(c: Config): Config {
    var ready := c.(extensions := c.extensions[LEADER_ELECTOR := Opaque],
                    serviceExtensions := c.serviceExtensions + [LEADER_ELECTOR],
                    receivers := c.receivers[CLUSTER_RECEIVER := Opaque]);
    if RootName(Metrics) in ready.pipelines then
      var p := ready.pipelines[RootName(Metrics)];
      ready.(pipelines := ready.pipelines[RootName(Metrics) := p.(receivers := p.receivers + [CLUSTER_RECEIVER])])
    else ready
  }

  function AddConfigExtension(c: Config, o: Options): Config {
    match o.configExtension
    case None => c
    case Some(name) => c.(serviceExtensions := c.serviceExtensions + [name], extensions := c.extensions[name := Opaque])
  }

  /** What is added once the telemetry of the collector itself is there. */
  function Finished(c: Config, o: Options, enabled: set<Signal>): Config {
    var graphed := if Traces in enabled && !On(o.serviceGraphDisabled) then InsertServiceGraph(c, o) else c;
    var correlated := if Traces in enabled then InsertServiceIO(graphed, o) else graphed;
    var clustered :=
      if Metrics in enabled && On(o.clusterMetrics) then InsertClusterMetrics(correlated) else correlated;
    AddConfigExtension(clustered, o)
  }

  function RoutePipelines(routes: seq<Route>): seq<Name> {
    if routes == [] then [] else RoutePipelines(routes[..|routes| - 1]) + [routes[|routes| - 1].pipeline]
  }

  const ROOT_NAMES := [RootName(Traces), RootName(Metrics), RootName(Logs), RootName(Profiles)]

  function WithSelfTelemetry(i: Inputs): Result<Config, string> {
    match i.selfTelemetry
    case None => Ok(Rooted(i))
    case Some(apply) => apply(Rooted(i), RoutePipelines(WiringOf(i).routes), ROOT_NAMES)
  }

  function SignalsInOrder(enabled: set<Signal>): seq<Signal> {
    (if Traces in enabled then [Traces] else []) + (if Metrics in enabled then [Metrics] else []) +
    (if Logs in enabled then [Logs] else []) + (if Profiles in enabled then [Profiles] else [])
  }

  datatype Compiled = Compiled(
    config: Result<Config, string>,
    destinations: map<string, Option<string>>,
    processors: map<string, string>,
    signals: seq<Signal>)

  /** The whole calculation. */
  function Compile(i: Inputs): Compiled {
    var w := WiringOf(i);
    var enabled, errs := Enabled(w, i.options), Sorted(i.processors).errs;
    match WithSelfTelemetry(i)
    case Err(e) => Compiled(Err(e), w.status, errs, [])
    case Ok(c) => Compiled(Ok(Finished(c, i.options, enabled)), w.status, errs, SignalsInOrder(enabled))
  }
}
