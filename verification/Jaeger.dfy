/**
 The configurer of Jaeger destinations (`common/config/jaeger.go`), which adds the pipeline of traces
 before it finds out that other signals are not allowed. It honours the contract of configurers all the
 same, and what it leaves behind then is a pipeline that nothing feeds.
 */
module Jaeger {
  import opened Wrappers
  import opened CollectorConfig
  import opened DestinationWiring
  import opened GatewayConfig
  import opened GatewaySoundness

  /** `endpointValid` says whether the settings have an address that can be parsed. */
  datatype Settings = Settings(endpointValid: bool, signals: set<Signal>)

  function ExporterName(id: string): Name { "otlp_grpc/jaeger-" + id }

  function PipelineName(id: string): Name { "traces/jaeger-" + id }

  function Exposed(c: Config, id: string): Config {
    c.(exporters := c.exporters[ExporterName(id) := Opaque])
  }

  function Piped(c: Config, id: string): Config {
    Exposed(c, id).(pipelines := c.pipelines[PipelineName(id) := Pipeline([], [], [ExporterName(id)])])
  }

  function ModifyConfig(s: Settings, id: string, c: Config): Answer {
    if !s.endpointValid then Rejected(c, "no valid url")
    else if Traces !in s.signals then Rejected(Exposed(c, id), "tracing is disabled")
    else if Metrics in s.signals then Rejected(Piped(c, id), "metrics are not allowed")
    else if Logs in s.signals then Rejected(Piped(c, id), "logs are not allowed")
    else Configured(Piped(c, id), [PipelineName(id)])
  }

  function ConfigurerOf(settings: string -> Settings): Configurer {
    (d: Destination, c: Config) => ModifyConfig(settings(d.id), d.id, c)
  }

  lemma NamesAreFree(streams: set<Name>, id: string)
    requires PipelineName(id) !in streams
    ensures FreeName(streams, PipelineName(id)) && Carries(PipelineName(id), Traces)
    ensures !GatewayConnector(ExporterName(id)) && ExporterName(id) != SERVICE_GRAPH
  {
    var n, e := PipelineName(id), ExporterName(id);
    assert n[..7] == "traces/" && n[7] == 'j';
    assert RootName(Traces)[7] == 'i' && EXPORTING[7] == 'e';
    assert RootName(Metrics)[0] == 'm' && RootName(Logs)[0] == 'l' && RootName(Profiles)[0] == 'p';
    assert e[0] == 'o' && e[1] == 't' && ROUTER[1] == 'd' && SERVICE_GRAPH[0] == 's' && SERVICE_IO[0] == 's';
  }

  /** Whatever its settings, and whether it succeeds or not, the configurer honours its contract. */
  lemma ModifyConfigHonours(streams: set<Name>, s: Settings, id: string, c: Config)
    requires Apart(NamesOf(c)) && ClosedExtensions(c)
    requires PipelineName(id) !in c.pipelines && PipelineName(id) !in streams && ExporterName(id) !in c.connectors
    ensures Honours(streams, c, ModifyConfig(s, id, c))
  {
    var answer := ModifyConfig(s, id, c);
    if answer.config == Piped(c, id) {
      PipedHonours(streams, id, c, answer);
    } else {
      ExposedHonours(streams, id, c);
    }
  }

  lemma NewName(pipelines: Pipelines, n: Name, p: Pipeline)
    requires n !in pipelines
    ensures Distinct([n]) && Elements([n]) == {n} == pipelines[n := p].Keys - pipelines.Keys
  {
  }

  lemma ExposedHonours(streams: set<Name>, id: string, c: Config)
    requires Apart(NamesOf(c)) && ClosedExtensions(c) && PipelineName(id) !in streams &&
        ExporterName(id) !in c.connectors
    ensures AddsTo(c, Exposed(c, id)) && Apart(NamesOf(Exposed(c, id))) && ClosedExtensions(Exposed(c, id))
  {
    NamesAreFree(streams, id);
  }

  lemma PipedHonours(streams: set<Name>, id: string, c: Config, answer: Answer)
    requires Apart(NamesOf(c)) && ClosedExtensions(c)
    requires PipelineName(id) !in c.pipelines && PipelineName(id) !in streams && ExporterName(id) !in c.connectors
    requires answer.config == Piped(c, id) && (answer.Configured? ==> answer.pipelines == [PipelineName(id)])
    ensures Honours(streams, c, answer)
  {
    NamesAreFree(streams, id);
    ExposedHonours(streams, id, c);
    NewName(c.pipelines, PipelineName(id), Piped(c, id).pipelines[PipelineName(id)]);
    assert DestinationPipeline(streams, NamesOf(Piped(c, id)), PipelineName(id),
      Piped(c, id).pipelines[PipelineName(id)]);
  }

  /** It succeeds exactly if its address is valid and it is asked for traces, and for no metrics or logs. */
  lemma SucceedsIff(s: Settings, id: string, c: Config)
    ensures ModifyConfig(s, id, c).Configured? <==>
              s.endpointValid && Traces in s.signals && Metrics !in s.signals && Logs !in s.signals
    ensures ModifyConfig(s, id, c).Configured? ==> ModifyConfig(s, id, c).pipelines == ["traces/jaeger-" + id]
  {
    assert PipelineName(id) == "traces/jaeger-" + id;
  }

  /** It leaves a pipeline behind exactly if it is asked for traces, and for metrics or logs besides. */
  lemma LeavesPipelineIff(s: Settings, id: string, c: Config)
    requires PipelineName(id) !in c.pipelines
    ensures ModifyConfig(s, id, c).Rejected? && PipelineName(id) in ModifyConfig(s, id, c).config.pipelines <==>
              s.endpointValid && Traces in s.signals && (Metrics in s.signals || Logs in s.signals)
  {
  }

  // ---------- an instance ----------

  const METRICS_TOO := (id: string) => Settings(true, {Traces, Metrics})

  const NO_OPTIONS := Options(None, None, None, None, None, None, "")

  /** One destination that asks for traces and metrics. */
  function OneJaeger(id: string): Inputs {
    Inputs([Destination(id, "jaeger")], map["jaeger" := ConfigurerOf(METRICS_TOO)], [], None, [], NO_OPTIONS)
  }

  /** It is compiled into a configuration whose only pipeline has no receiver at all. */
  lemma OneJaegerIsUnfed(id: string)
    ensures var i, n := OneJaeger(id), PipelineName(id);
      && Relied(i) && Compile(i).config.Ok? && n in Compile(i).config.value.pipelines
      && (forall r :: r !in Compile(i).config.value.pipelines[n].receivers)
      && Compile(i).destinations == map[id := Some("metrics are not allowed")]
  {
    var i, n, d := OneJaeger(id), PipelineName(id), Destination(id, "jaeger");
    BasicConfigIs(i);
    ModifyConfigHonours({}, METRICS_TOO(id), id, BASIC_CONFIG);
    OneJaegerIsRelied(id);
    assert i.dests[..0] == [];
    assert WireAll(Wiring0(i), i.configurers, []) == Wiring0(i);
    RejectedPipelineStays(i, 0, n);
  }

  lemma OneJaegerIsRelied(id: string)
    ensures Relied(OneJaeger(id))
  {
    var i := OneJaeger(id);
    BasicConfigIs(i);
    assert StreamNames(i.streams) == {};
    ModifyConfigHonours({}, METRICS_TOO(id), id, BASIC_CONFIG);
    assert i.dests[..0] == [];
    assert AllHonour({}, Wiring0(i), i.configurers, []);
    assert AllHonour({}, Wiring0(i), i.configurers, i.dests);
  }

  lemma BasicConfigIs(i: Inputs)
    requires i.processors == [] && i.options == NO_OPTIONS
    ensures Wiring0(i) == Unwired(BASIC_CONFIG)
    ensures Apart(NamesOf(BASIC_CONFIG)) && ClosedExtensions(BASIC_CONFIG)
  {
    OwnEndsAreNoConnectors();
  }
}
