/**
 What holds of every compiled gateway configuration (`common/pipelinegen/config_builder.go`): it is closed
 under references, its connector graph has no cycle, data streams reach exactly their destinations, and
 traces are put together before they are sampled.
 */
module GatewaySoundness {
  import opened Wrappers
  import opened CollectorConfig
  import opened CrdProcessors
  import opened TracesSplit
  import opened DestinationWiring
  import opened DataStreamPipelines
  import opened GatewayConfig

  ghost function StreamNames(streams: seq<DataStream>): set<Name> {
    set d, s | d in streams && s in SIGNALS :: StreamPipeline(s, d)
  }

  /** No stream has a name that makes one of its pipelines one of the gateway's own. */
  ghost predicate StreamsFree(streams: set<Name>) {
    forall n :: n in streams ==> !IsRoot(n) && n !in {EXPORTING, SERVICE_GRAPH_PIPELINE, CORRELATIONS_PIPELINE}
  }

  // ---------- lists that others are inserted into ----------

  /** `kept` can be got from `all` by dropping elements, in the simplest case from the end. */
  ghost predicate Kept<T>(kept: seq<T>, all: seq<T>) {
    kept <= all || exists from :: Embeds(from, kept, all)
  }

  lemma KeptEmbeds<T>(kept: seq<T>, all: seq<T>) returns (from: seq<nat>)
    requires Kept(kept, all)
    ensures Embeds(from, kept, all)
  {
    if kept <= all {
      from := seq(|kept|, k => k);
    } else {
      from :| Embeds(from, kept, all);
    }
  }

  lemma KeptTransitive<T>(a: seq<T>, b: seq<T>, c: seq<T>)
    requires Kept(a, b) && Kept(b, c)
    ensures Kept(a, c)
  {
    var f := KeptEmbeds(a, b);
    var g := KeptEmbeds(b, c);
    var h := seq(|f|, k requires 0 <= k < |f| => g[f[k]]);
    assert Embeds(h, a, c);
  }

  lemma KeptAround<T>(a: seq<T>, x: seq<T>, b: seq<T>)
    ensures Kept(a + b, a + x + b)
  {
    var from := seq(|a + b|, k => if k < |a| then k else k + |x|);
    assert Embeds(from, a + b, a + x + b);
  }

  // ---------- how a configuration may change once it is rooted ----------

  predicate MayTap(n: Name) { IsRoot(n) || n == EXPORTING }

  /** Things are added at the end; in a root other than that of traces, processors may be added in between. */
  ghost predicate Extends(n: Name, p: Pipeline, q: Pipeline) {
    && p.receivers <= q.receivers && p.exporters <= q.exporters
    && (if IsRoot(n) && n != RootName(Traces) then Kept(p.processors, q.processors)
        else p.processors <= q.processors)
    && (forall r :: r in q.receivers ==> r in p.receivers || (r == CLUSTER_RECEIVER && n == RootName(Metrics)))
    && (forall e :: e in q.exporters ==>
          e in p.exporters || (MayTap(n) && (e in {SERVICE_GRAPH, SERVICE_IO} || !GatewayConnector(e))))
  }

  /** Pipelines are extended, and new ones are neither roots nor traces/exporting nor of a stream. */
  ghost predicate Later(streams: set<Name>, a: Config, b: Config) {
    && Within(NamesOf(a), NamesOf(b))
    && (forall n :: n in a.pipelines ==> n in b.pipelines && Extends(n, a.pipelines[n], b.pipelines[n]))
    && (forall n :: n in b.pipelines && n !in a.pipelines ==> !IsRoot(n) && n != EXPORTING && n !in streams)
  }

  /**
   The contract of the callback. It may add pipelines of its own, fed by no connector, and add to the
   pipelines there are: exporters to the roots and to traces/exporting, and processors other than the
   sampler; in the roots of other signals than traces these may stand anywhere, elsewhere at the end.
   */
  ghost predicate Benign(streams: set<Name>, a: Config, b: Config) {
    && Later(streams, a, b) && a.connectors.Keys == b.connectors.Keys && Apart(NamesOf(b)) && ClosedExtensions(b)
    && (forall n :: n in a.pipelines ==> AddsOwn(n, NamesOf(b), a.pipelines[n], b.pipelines[n]))
    && (forall n :: n in b.pipelines && n !in a.pipelines ==>
          n !in {SERVICE_GRAPH_PIPELINE, CORRELATIONS_PIPELINE} && OwnPipeline(NamesOf(b), b.pipelines[n]))
  }

  /** What the callback adds to a pipeline is defined, and is no connector and no sampler. */
  ghost predicate AddsOwn(n: Name, ns: Names, p: Pipeline, q: Pipeline) {
    && q.receivers == p.receivers
    && (forall x :: x in q.processors ==> x in p.processors || (x in ns.processors && x != TAIL_SAMPLING))
    && (forall e :: e in q.exporters ==> e in p.exporters || (e in ns.exporters && MayTap(n)))
  }

  ghost predicate OwnPipeline(ns: Names, p: Pipeline) {
    && ClosedPipeline(ns, p) && TAIL_SAMPLING !in p.processors
    && (forall r :: r in p.receivers ==> r !in ns.connectors)
    && (forall e :: e in p.exporters ==> e !in ns.connectors)
  }

  /** What is relied on: configurers and callback honour their contracts, and names do not clash. */
  ghost predicate Relied(i: Inputs) {
    && StreamsFree(StreamNames(i.streams))
    && AllHonour(StreamNames(i.streams), Wiring0(i), i.configurers, i.dests)
    && (i.selfTelemetry.Some? ==> forall c :: WithSelfTelemetry(i) == Ok(c) ==>
          Benign(StreamNames(i.streams), Rooted(i), c))
  }

  // ---------- small steps ----------

  lemma GrowKeeps(streams: set<Name>, a: Config, b: Config)
    requires Sound(streams, a) && b.pipelines == a.pipelines && Within(NamesOf(a), NamesOf(b))
    requires Apart(NamesOf(b)) && ClosedExtensions(b)
    ensures Sound(streams, b)
  {
    forall n | n in b.pipelines ensures Fit(streams, NamesOf(b), n, b.pipelines[n]) {
      StaysFit(streams, NamesOf(a), NamesOf(b), n, a.pipelines[n]);
    }
  }

  lemma SetPipelineKeeps(streams: set<Name>, c: Config, n: Name, p: Pipeline)
    requires Sound(streams, c) && Fit(streams, NamesOf(c), n, p)
    ensures Sound(streams, c.(pipelines := c.pipelines[n := p]))
  {
  }

  lemma ExtendsTransitive(n: Name, p: Pipeline, q: Pipeline, r: Pipeline)
    requires Extends(n, p, q) && Extends(n, q, r)
    ensures Extends(n, p, r)
  {
    if IsRoot(n) && n != RootName(Traces) {
      KeptTransitive(p.processors, q.processors, r.processors);
    }
  }

  lemma LaterTransitive(streams: set<Name>, a: Config, b: Config, c: Config)
    requires Later(streams, a, b) && Later(streams, b, c)
    ensures Later(streams, a, c)
  {
    forall n | n in a.pipelines ensures n in c.pipelines && Extends(n, a.pipelines[n], c.pipelines[n]) {
      ExtendsTransitive(n, a.pipelines[n], b.pipelines[n], c.pipelines[n]);
    }
  }

  lemma SinksAreLevelFour()
    ensures Level(SERVICE_GRAPH) == 4 && Level(SERVICE_IO) == 4
    ensures !GatewayConnector(SERVICE_GRAPH) && !(FORWARD <= SERVICE_IO)
    ensures !GatewayEnd(SERVICE_GRAPH) && !GatewayEnd(SERVICE_IO)
  {
    assert SERVICE_GRAPH[0] == 's' && SERVICE_IO[0] == 's' && FORWARD[0] == 'f' && ROUTER[0] == 'o' &&
      POST_GROUP_BY[0] == 'f';
    assert |SERVICE_GRAPH| == 12 && |SERVICE_IO| == 9;
  }

  /** A sink pipeline of metrics: in from one sink connector, out to exporters only. */
  lemma SinkFits(streams: set<Name>, ns: Names, n: Name, p: Pipeline)
    requires Apart(ns) && ClosedPipeline(ns, p) && n in {SERVICE_GRAPH_PIPELINE, CORRELATIONS_PIPELINE} && n !in streams
    requires forall r :: r in p.receivers ==> r in {SERVICE_GRAPH, SERVICE_IO}
    requires (forall e :: e in p.exporters ==> e in ns.exporters) && TAIL_SAMPLING !in p.processors
    ensures Fit(streams, ns, n, p) && !IsRoot(n) && n != EXPORTING
  {
    SinksAreLevelFour();
    RootNamesDiffer(Logs, Logs);
    RootNamesDiffer(Metrics, Metrics);
    RootNamesDiffer(Traces, Traces);
    RootNamesDiffer(Profiles, Profiles);
    assert n[0] == 'm' && EXPORTING[0] == 't';
    assert Carries(n, Metrics);
    if Carries(n, Traces) {
      OneSignal(n, Traces, Metrics);
      assert false;
    }
    assert Rank(streams, n) == 4;
    assert !(FORWARD <= SERVICE_GRAPH) by { assert SERVICE_GRAPH[0] == 's'; }
    assert OTLP != SERVICE_GRAPH && OTLP != SERVICE_IO by { assert |OTLP| == 4; }
  }

  lemma SinkExporterFits(streams: set<Name>, ns: Names, name: Name, p: Pipeline, k: Name)
    requires Fit(streams, ns, name, p) && (name == RootName(Traces) || name == EXPORTING)
    requires k in {SERVICE_GRAPH, SERVICE_IO} && k in ns.connectors
    ensures Fit(streams, ns, name, p.(exporters := p.exporters + [k]))
    ensures Extends(name, p, p.(exporters := p.exporters + [k]))
  {
    SinksAreLevelFour();
  }

  lemma SetPipelineLater(streams: set<Name>, c: Config, n: Name, p: Pipeline)
    requires n in c.pipelines && Extends(n, c.pipelines[n], p)
    ensures Later(streams, c, c.(pipelines := c.pipelines[n := p]))
  {
  }

  /** One more sink connector as an exporter of the last shared pipeline of traces. */
  lemma AddExporterKeeps(streams: set<Name>, c: Config, name: Name, k: Name)
    requires Sound(streams, c) && (name == RootName(Traces) || name == EXPORTING)
    requires k in {SERVICE_GRAPH, SERVICE_IO} && k in c.connectors
    ensures Sound(streams, AddExporter(c, name, k)) && Later(streams, c, AddExporter(c, name, k))
  {
    if name in c.pipelines {
      var p := c.pipelines[name];
      SinkExporterFits(streams, NamesOf(c), name, p, k);
      SetPipelineKeeps(streams, c, name, p.(exporters := p.exporters + [k]));
      SetPipelineLater(streams, c, name, p.(exporters := p.exporters + [k]));
    }
  }

  /** A new pipeline that is neither a root nor traces/exporting nor of a stream. */
  lemma NewPipelineLater(streams: set<Name>, a: Config, b: Config, n: Name)
    requires Within(NamesOf(a), NamesOf(b)) && n in b.pipelines && b.pipelines == a.pipelines[n := b.pipelines[n]]
    requires n !in a.pipelines && !IsRoot(n) && n != EXPORTING && n !in streams
    ensures Later(streams, a, b)
  {
  }

  lemma SameStaysLater(streams: set<Name>, a: Config, b: Config)
    requires Within(NamesOf(a), NamesOf(b)) && b.pipelines == a.pipelines
    ensures Later(streams, a, b)
  {
  }

  lemma ExposeKeeps(streams: set<Name>, c: Config)
    requires Sound(streams, c)
    ensures Sound(streams, ExposeServiceGraph(c))
  {
    OwnEndsAreNoConnectors();
    GrowKeeps(streams, c, ExposeServiceGraph(c));
  }

  lemma ConnectKeeps(streams: set<Name>, c: Config)
    requires Sound(streams, c)
    ensures Sound(streams, ConnectServiceGraph(c))
  {
    SinksAreLevelFour();
    GatewayConnectorsStayApart(NamesOf(c), {SERVICE_GRAPH});
    assert NamesOf(ConnectServiceGraph(c)) == NamesOf(c).(connectors := NamesOf(c).connectors + {SERVICE_GRAPH});
    GrowKeeps(streams, c, ConnectServiceGraph(c));
  }

  lemma WithInsightsKeeps(streams: set<Name>, c: Config)
    requires Sound(streams, c)
    ensures Sound(streams, WithInsights(c))
  {
    OwnEndsAreNoConnectors();
    GrowKeeps(streams, c, WithInsights(c));
  }

  lemma PipeServiceGraphKeeps(streams: set<Name>, c: Config, o: Options)
    requires Sound(streams, c) && StreamsFree(streams) && SERVICE_GRAPH_PIPELINE !in c.pipelines
    requires SERVICE_GRAPH in c.connectors && SERVICE_GRAPH_EXPORTER in c.exporters
    ensures Sound(streams, PipeServiceGraph(c, o)) && Later(streams, c, PipeServiceGraph(c, o))
  {
    WithInsightsKeeps(streams, c);
    var ready := if InsightsOn(o) then WithInsights(c) else c;
    GraphSinkFits(streams, NamesOf(ready), o);
    SetPipelineKeeps(streams, ready, SERVICE_GRAPH_PIPELINE, ServiceGraphPipeline(InsightsOn(o)));
    NewPipelineLater(streams, c, PipeServiceGraph(c, o), SERVICE_GRAPH_PIPELINE);
  }

  lemma GraphSinkFits(streams: set<Name>, ns: Names, o: Options)
    requires Apart(ns) && StreamsFree(streams) && SERVICE_GRAPH in ns.connectors
    requires SERVICE_GRAPH_EXPORTER in ns.exporters
    requires InsightsOn(o) ==> INSIGHTS_EXPORTER in ns.exporters && POD_NAME in ns.processors
    ensures Fit(streams, ns, SERVICE_GRAPH_PIPELINE, ServiceGraphPipeline(InsightsOn(o)))
  {
    var sink := ServiceGraphPipeline(InsightsOn(o));
    assert TAIL_SAMPLING != POD_NAME by { assert POD_NAME[0] == 'r' && TAIL_SAMPLING[0] == 'o'; }
    assert SERVICE_GRAPH_PIPELINE !in streams;
    assert ClosedPipeline(ns, sink);
    SinkFits(streams, ns, SERVICE_GRAPH_PIPELINE, sink);
  }

  lemma OwnEndsAreNoConnectors()
    ensures forall n :: GatewayEnd(n) ==> !GatewayConnector(n) && n != SERVICE_GRAPH
  {
    assert OTLP[0] == 'o' && CLUSTER_RECEIVER[0] == 'k' && SERVICE_GRAPH_EXPORTER[0] == 'p';
    assert INSIGHTS_EXPORTER[1] == 't' && CORRELATIONS_EXPORTER[1] == 't' && OTLP[1] == 't' && ROUTER[1] == 'd';
    assert FORWARD[0] == 'f' && ROUTER[0] == 'o' && SERVICE_GRAPH[0] == 's' && SERVICE_IO[0] == 's';
    assert INSIGHTS_EXPORTER[0] == 'o' && CORRELATIONS_EXPORTER[0] == 'o';
  }

  lemma InsertServiceGraphKeeps(streams: set<Name>, c: Config, o: Options)
    requires Sound(streams, c) && StreamsFree(streams) && SERVICE_GRAPH_PIPELINE !in c.pipelines
    ensures Sound(streams, InsertServiceGraph(c, o)) && Later(streams, c, InsertServiceGraph(c, o))
  {
    var exposed := ExposeServiceGraph(c);
    ExposeKeeps(streams, c);
    SameStaysLater(streams, c, exposed);
    if AddServiceGraphScrapeConfig(exposed).Some? {
      var scraped := AddServiceGraphScrapeConfig(exposed).value;
      GrowKeeps(streams, exposed, scraped);
      var connected := ConnectServiceGraph(scraped);
      ConnectKeeps(streams, scraped);
      SameStaysLater(streams, c, connected);
      var piped := PipeServiceGraph(connected, o);
      PipeServiceGraphKeeps(streams, connected, o);
      LaterTransitive(streams, c, connected, piped);
      var name := TracesPipelineForDownstreamConnectors(piped);
      AddExporterKeeps(streams, piped, name, SERVICE_GRAPH);
      LaterTransitive(streams, c, piped, AddExporter(piped, name, SERVICE_GRAPH));
    }
  }

  lemma ServiceGraphAddsOneName(c: Config, o: Options)
    requires CORRELATIONS_PIPELINE !in c.pipelines
    ensures CORRELATIONS_PIPELINE !in InsertServiceGraph(c, o).pipelines
  {
  }

  lemma PipeServiceIOKeeps(streams: set<Name>, c: Config)
    requires Sound(streams, c) && StreamsFree(streams) && CORRELATIONS_PIPELINE !in c.pipelines
    ensures Sound(streams, PipeServiceIO(c)) && Later(streams, c, PipeServiceIO(c))
  {
    var exposed := c.(connectors := c.connectors[SERVICE_IO := Opaque],
                      exporters := c.exporters[CORRELATIONS_EXPORTER := Opaque]);
    var sink := Pipeline([SERVICE_IO], [], [CORRELATIONS_EXPORTER]);
    ServiceIOConnects(streams, c);
    SinksAreLevelFour();
    assert CORRELATIONS_PIPELINE !in streams;
    SinkFits(streams, NamesOf(exposed), CORRELATIONS_PIPELINE, sink);
    SetPipelineKeeps(streams, exposed, CORRELATIONS_PIPELINE, sink);
    NewPipelineLater(streams, c, PipeServiceIO(c), CORRELATIONS_PIPELINE);
  }

  lemma ServiceIOConnects(streams: set<Name>, c: Config)
    requires Sound(streams, c)
    ensures Sound(streams, c.(connectors := c.connectors[SERVICE_IO := Opaque],
                              exporters := c.exporters[CORRELATIONS_EXPORTER := Opaque]))
  {
    var connected := c.(connectors := c.connectors[SERVICE_IO := Opaque]);
    SinksAreLevelFour();
    OwnEndsAreNoConnectors();
    GatewayConnectorsStayApart(NamesOf(c), {SERVICE_IO});
    assert NamesOf(connected) == NamesOf(c).(connectors := NamesOf(c).connectors + {SERVICE_IO});
    GrowKeeps(streams, c, connected);
    GrowKeeps(streams, connected, connected.(exporters := c.exporters[CORRELATIONS_EXPORTER := Opaque]));
  }

  lemma InsertServiceIOKeeps(streams: set<Name>, c: Config, o: Options)
    requires Sound(streams, c) && StreamsFree(streams) && CORRELATIONS_PIPELINE !in c.pipelines
    ensures Sound(streams, InsertServiceIO(c, o)) && Later(streams, c, InsertServiceIO(c, o))
  {
    SameStaysLater(streams, c, c);
    if On(o.serviceIO) {
      var piped := PipeServiceIO(c);
      PipeServiceIOKeeps(streams, c);
      AddExporterKeeps(streams, piped, RootName(Traces), SERVICE_IO);
      LaterTransitive(streams, c, piped, AddExporter(piped, RootName(Traces), SERVICE_IO));
    }
  }

  lemma ClusterReceiverFits(streams: set<Name>, ns: Names, p: Pipeline)
    requires Fit(streams, ns, RootName(Metrics), p) && Apart(ns) && CLUSTER_RECEIVER in ns.receivers
    ensures Fit(streams, ns, RootName(Metrics), p.(receivers := p.receivers + [CLUSTER_RECEIVER]))
  {
  }

  lemma InsertClusterMetricsKeeps(streams: set<Name>, c: Config)
    requires Sound(streams, c)
    ensures Sound(streams, InsertClusterMetrics(c)) && Later(streams, c, InsertClusterMetrics(c))
  {
    var ready := c.(extensions := c.extensions[LEADER_ELECTOR := Opaque],
                    serviceExtensions := c.serviceExtensions + [LEADER_ELECTOR],
                    receivers := c.receivers[CLUSTER_RECEIVER := Opaque]);
    OwnEndsAreNoConnectors();
    GrowKeeps(streams, c, ready);
    SameStaysLater(streams, c, ready);
    var root := RootName(Metrics);
    if root in ready.pipelines {
      var p := ready.pipelines[root];
      var q := p.(receivers := p.receivers + [CLUSTER_RECEIVER]);
      ClusterReceiverFits(streams, NamesOf(ready), p);
      SetPipelineKeeps(streams, ready, root, q);
      SetPipelineLater(streams, ready, root, q);
      LaterTransitive(streams, c, ready, InsertClusterMetrics(c));
    }
  }

  lemma AddConfigExtensionKeeps(streams: set<Name>, c: Config, o: Options)
    requires Sound(streams, c)
    ensures Sound(streams, AddConfigExtension(c, o)) && Later(streams, c, AddConfigExtension(c, o))
  {
    GrowKeeps(streams, c, AddConfigExtension(c, o));
    SameStaysLater(streams, c, AddConfigExtension(c, o));
  }

  /** Everything added after the collector's own telemetry keeps the configuration sound. */
  lemma FinishedKeeps(streams: set<Name>, c: Config, o: Options, enabled: set<Signal>)
    requires Sound(streams, c) && StreamsFree(streams)
    requires SERVICE_GRAPH_PIPELINE !in c.pipelines && CORRELATIONS_PIPELINE !in c.pipelines
    ensures Sound(streams, Finished(c, o, enabled)) && Later(streams, c, Finished(c, o, enabled))
  {
    var graphed := if Traces in enabled && !On(o.serviceGraphDisabled) then InsertServiceGraph(c, o) else c;
    var correlated := if Traces in enabled then InsertServiceIO(graphed, o) else graphed;
    var clustered :=
      if Metrics in enabled && On(o.clusterMetrics) then InsertClusterMetrics(correlated) else correlated;
    SameStaysLater(streams, c, c);
    InsertServiceGraphKeeps(streams, c, o);
    ServiceGraphAddsOneName(c, o);
    InsertServiceIOKeeps(streams, graphed, o);
    SameStaysLater(streams, graphed, graphed);
    LaterTransitive(streams, c, graphed, correlated);
    InsertClusterMetricsKeeps(streams, correlated);
    SameStaysLater(streams, correlated, correlated);
    LaterTransitive(streams, c, correlated, clustered);
    AddConfigExtensionKeeps(streams, clustered, o);
    LaterTransitive(streams, c, clustered, AddConfigExtension(clustered, o));
  }

  /** So does a callback that honours its contract. */
  lemma BenignKeeps(streams: set<Name>, a: Config, b: Config)
    requires Sound(streams, a) && Benign(streams, a, b)
    ensures Sound(streams, b)
  {
    forall n | n in b.pipelines ensures Fit(streams, NamesOf(b), n, b.pipelines[n]) {
      if n in a.pipelines {
        StaysFit(streams, NamesOf(a), NamesOf(b), n, a.pipelines[n]);
        assert AddsOwn(n, NamesOf(b), a.pipelines[n], b.pipelines[n]);
        AddsOwnFits(streams, NamesOf(b), n, a.pipelines[n], b.pipelines[n]);
      } else {
        assert OwnPipeline(NamesOf(b), b.pipelines[n]);
      }
    }
  }

  lemma AddsOwnFits(streams: set<Name>, ns: Names, n: Name, p: Pipeline, q: Pipeline)
    requires Fit(streams, ns, n, p) && Apart(ns) && AddsOwn(n, ns, p, q)
    ensures Fit(streams, ns, n, q)
  {
  }

  // ---------- the plan of the roots ----------

  lemma PreparedIs(crd: CrdProcessorResults, o: Options)
    requires GROUP_BY_TRACE !in crd.tracesProcessors
    ensures var (c, traces) := Prepared(crd, o);
      && traces == (if On(o.tailSampling) && o.configExtension.Some? then [TAIL_SAMPLING] else []) +
                   (if TraceAggregationNeeded(o) then [GROUP_BY_TRACE] else []) + crd.tracesProcessors
      && c == BASIC_CONFIG.(processors := c.processors)
      && VERSION in c.processors && BATCH in c.processors
      && (forall p :: p in crd.processors ==> p in c.processors)
      && (forall p :: p in traces && p !in crd.tracesProcessors ==> p in c.processors)
  {
  }

  /** Keys of processor resources contain a slash, and the gateway's own trace processors do not. */
  lemma OwnProcessorsHaveNoSlash()
    ensures '/' !in GROUP_BY_TRACE && '/' !in TAIL_SAMPLING && '/' !in TRACE_STATE
    ensures TRACE_STATE != TAIL_SAMPLING && GROUP_BY_TRACE != TAIL_SAMPLING && BATCH != TAIL_SAMPLING &&
        VERSION != TAIL_SAMPLING
  {
  }

  ghost predicate Defined(names: seq<Name>, c: Config) {
    forall p :: p in names ==> p in c.processors
  }

  /** All a plan lists is defined, and it has the sampler only among the processors it splits. */
  ghost predicate PlanFits(plan: Plan, c: Config) {
    && Defined(plan.traces, c) && Defined(plan.post, c) && Defined(plan.metrics, c)
    && Defined(plan.logs, c) && Defined(plan.profiles, c) && VERSION in c.processors
    && TAIL_SAMPLING !in plan.post && TAIL_SAMPLING !in plan.metrics && TAIL_SAMPLING !in plan.logs
    && TAIL_SAMPLING !in plan.profiles && (!plan.aggregated ==> TAIL_SAMPLING !in plan.traces)
  }

  lemma StagedAreDefined(processors: seq<Processor>, stage: Stage, c: Config)
    requires forall p :: p in CrdProcessors.Defined(processors) ==> p in c.processors
    ensures Defined(Staged(processors, stage), c)
    ensures forall p :: p in Staged(processors, stage) ==> '/' in p
  {
  }

  lemma PreparedFits(i: Inputs)
    ensures Wired(StreamNames(i.streams), Wiring0(i))
    ensures GROUP_BY_TRACE !in Sorted(i.processors).tracesProcessors
    ensures var (c, crd) := (Prepared(Sorted(i.processors), i.options).0, Sorted(i.processors));
      && Defined(Prepared(crd, i.options).1, c) && VERSION in c.processors
      && Defined(crd.tracesProcessorsPostSpanMetrics, c) && Defined(crd.metricsProcessors, c)
      && Defined(crd.logsProcessors, c) && Defined(crd.profilesProcessors, c)
  {
    var crd, o := Sorted(i.processors), i.options;
    OwnProcessorsHaveNoSlash();
    StagedAreDefined(i.processors, PreSpanMetrics, BASIC_CONFIG.(processors := crd.processors));
    PreparedIs(crd, o);
    var c := Prepared(crd, o).0;
    StagedAreDefined(i.processors, PreSpanMetrics, c);
    StagedAreDefined(i.processors, PostSpanMetrics, c);
    StagedAreDefined(i.processors, Other(Metrics), c);
    StagedAreDefined(i.processors, Other(Logs), c);
    StagedAreDefined(i.processors, Other(Profiles), c);
    BasicIsWired(StreamNames(i.streams), c);
  }

  lemma BasicIsWired(streams: set<Name>, c: Config)
    requires c == BASIC_CONFIG.(processors := c.processors) && BATCH in c.processors
    ensures Wired(streams, Unwired(c))
  {
  }

  lemma PlanIsDefined(i: Inputs)
    requires Relied(i)
    ensures Wired(StreamNames(i.streams), WiringOf(i))
    ensures PlanFits(PlanOf(i), WithTraceState(WiringOf(i).config, Enabled(WiringOf(i), i.options)))
  {
    var streams, w := StreamNames(i.streams), WiringOf(i);
    PreparedFits(i);
    WireAllKeeps(streams, Wiring0(i), i.configurers, i.dests);
    WireAllGrows(streams, Wiring0(i), i.configurers, i.dests);
    PlanHasNoSampler(i);
  }

  lemma PlanHasNoSampler(i: Inputs)
    ensures var plan := PlanOf(i);
      && TAIL_SAMPLING !in plan.post && TAIL_SAMPLING !in plan.metrics && TAIL_SAMPLING !in plan.logs
      && TAIL_SAMPLING !in plan.profiles && (!plan.aggregated ==> TAIL_SAMPLING !in plan.traces)
  {
    var c := BASIC_CONFIG.(processors := Sorted(i.processors).processors);
    OwnProcessorsHaveNoSlash();
    forall stage
      ensures TAIL_SAMPLING !in Staged(i.processors, stage) && GROUP_BY_TRACE !in Staged(i.processors, stage)
    {
      StagedAreDefined(i.processors, stage, c);
    }
    PreparedIs(Sorted(i.processors), i.options);
  }

  // ---------- the roots ----------

  function RootAt(plan: Plan, s: Signal): Pipeline {
    if s != Traces || !plan.aggregated then RootPipeline(ProcessorsFor(plan, s), [Router(s)])
    else RootPipeline(StayIn(plan.traces), if plan.hasTracesDestination then [POST_GROUP_BY] else [])
  }

  predicate IsSplit(plan: Plan) {
    Traces in plan.enabled && plan.aggregated && plan.hasTracesDestination
  }

  predicate HasRouter(plan: Plan, s: Signal) {
    s in plan.enabled && (s != Traces || !plan.aggregated || plan.hasTracesDestination)
  }

  lemma RootNamesAllDiffer()
    ensures forall a, b :: RootName(a) == RootName(b) <==> a == b
    ensures forall a, b :: Router(a) == Router(b) <==> a == b
    ensures forall a :: RootName(a) != EXPORTING && IsRoot(RootName(a)) && Router(a) != POST_GROUP_BY
  {
  }

  /** There is a root for exactly the enabled signals, and traces/exporting exactly when traces are split. */
  lemma RootsAre(plan: Plan)
    ensures forall s :: RootName(s) in Roots(plan) <==> s in plan.enabled
    ensures forall s :: s in plan.enabled ==> Roots(plan)[RootName(s)] == RootAt(plan, s)
    ensures EXPORTING in Roots(plan) <==> IsSplit(plan)
    ensures IsSplit(plan) ==> Roots(plan)[EXPORTING] == ExportingPipeline(plan)
    ensures forall n :: n in Roots(plan) ==> n == EXPORTING || exists s :: s in plan.enabled && n == RootName(s)
  {
    forall s
      ensures RootName(s) in Roots(plan) <==> s in plan.enabled
      ensures s in plan.enabled ==> Roots(plan)[RootName(s)] == RootAt(plan, s)
    {
      RootOf(plan, s);
    }
    ExportingRoot(plan);
    forall n | n in Roots(plan) && n != EXPORTING ensures exists s :: s in plan.enabled && n == RootName(s) {
      RootOfSome(plan, n);
    }
  }

  lemma RootOf(plan: Plan, s: Signal)
    ensures RootName(s) in Roots(plan) <==> s in plan.enabled
    ensures s in plan.enabled ==> Roots(plan)[RootName(s)] == RootAt(plan, s)
  {
    TracesRootsAre(plan);
    RootNamesDiffer(s, Metrics);
    RootNamesDiffer(s, Logs);
    RootNamesDiffer(s, Profiles);
  }

  lemma ExportingRoot(plan: Plan)
    ensures EXPORTING in Roots(plan) <==> IsSplit(plan)
    ensures IsSplit(plan) ==> Roots(plan)[EXPORTING] == ExportingPipeline(plan)
  {
    TracesRootsAre(plan);
    RootNamesDiffer(Metrics, Metrics);
    RootNamesDiffer(Logs, Logs);
    RootNamesDiffer(Profiles, Profiles);
  }

  lemma RootOfSome(plan: Plan, n: Name)
    requires n in Roots(plan) && n != EXPORTING
    ensures exists s :: s in plan.enabled && n == RootName(s)
  {
    TracesRootsAre(plan);
    if n in SingleRoot(plan, Metrics) {
      assert n == RootName(Metrics);
    } else if n in SingleRoot(plan, Logs) {
      assert n == RootName(Logs);
    } else if n in SingleRoot(plan, Profiles) {
      assert n == RootName(Profiles);
    } else {
      assert n == RootName(Traces);
    }
  }

  lemma TracesRootsAre(plan: Plan)
    ensures forall s :: RootName(s) in TracesRoots(plan) <==> s == Traces && Traces in plan.enabled
    ensures Traces in plan.enabled ==> TracesRoots(plan)[RootName(Traces)] == RootAt(plan, Traces)
    ensures EXPORTING in TracesRoots(plan) <==> IsSplit(plan)
    ensures IsSplit(plan) ==> TracesRoots(plan)[EXPORTING] == ExportingPipeline(plan)
    ensures forall n :: n in TracesRoots(plan) ==> n == EXPORTING || n == RootName(Traces)
  {
  }

  lemma RootConnectorsAre(plan: Plan)
    ensures forall s :: Router(s) in RootConnectors(plan) <==> HasRouter(plan, s)
    ensures POST_GROUP_BY in RootConnectors(plan) <==> IsSplit(plan)
    ensures forall k :: k in RootConnectors(plan) ==> GatewayConnector(k) && !GatewayEnd(k)
  {
    forall s ensures Router(s) in RootConnectors(plan) <==> HasRouter(plan, s) {
      RouterOf(plan, s);
    }
    assert POST_GROUP_BY in RootConnectors(plan) <==> IsSplit(plan) by {
      RootNamesAllDiffer();
    }
    OwnEndsAreNoConnectors();
    assert FORWARD <= POST_GROUP_BY;
    forall s ensures GatewayConnector(Router(s)) {
      LevelOfRouter(s);
    }
    forall k | k in RootConnectors(plan) ensures k == POST_GROUP_BY || exists s :: k == Router(s) {
      assert k in {POST_GROUP_BY, Router(Traces), Router(Metrics), Router(Logs), Router(Profiles)};
    }
  }

  lemma RouterOf(plan: Plan, s: Signal)
    ensures Router(s) in RootConnectors(plan) <==> HasRouter(plan, s)
  {
    RootNamesDiffer(s, Traces);
    RootNamesDiffer(s, Metrics);
    RootNamesDiffer(s, Logs);
    RootNamesDiffer(s, Profiles);
    assert Router(s)[0] == 'o' && POST_GROUP_BY[0] == 'f';
  }

  /** A stream has a pipeline for a signal only if the router of the signal is there. */
  lemma StreamsHaveRouters(i: Inputs, stream: DataStream, s: Signal)
    requires Relied(i) && PipelineOf(WiringOf(i).forwards, stream, s).exporters != []
    ensures HasRouter(PlanOf(i), s)
  {
    var w := WiringOf(i);
    PlanIsDefined(i);
    var k := PipelineOf(w.forwards, stream, s).exporters[0];
    ExportsToItsDestinations(w, stream, s, k);
    var r :| r in w.routes && r.dest in stream.destinations && Carries(r.pipeline, s) && k == Forward(r.pipeline);
    assert s in w.signals;
  }

  // ---------- fitness of the new pipelines ----------

  lemma RootFits(streams: set<Name>, c: Config, plan: Plan, s: Signal)
    requires Apart(NamesOf(c)) && OTLP in c.receivers && PlanFits(plan, c) && s in plan.enabled
    requires HasRouter(plan, s) ==> Router(s) in c.connectors
    requires IsSplit(plan) ==> POST_GROUP_BY in c.connectors
    ensures Fit(streams, NamesOf(c), RootName(s), RootAt(plan, s))
  {
    var p := RootAt(plan, s);
    RootNamesAllDiffer();
    LevelOfRouter(s);
    OwnProcessorsHaveNoSlash();
    OwnEndsAreNoConnectors();
    StayInIs(plan.traces);
    assert TAIL_SAMPLING !in p.processors;
    assert ClosedPipeline(NamesOf(c), p);
  }

  lemma ExportingFits(streams: set<Name>, c: Config, plan: Plan)
    requires Apart(NamesOf(c)) && PlanFits(plan, c) && IsSplit(plan)
    requires Router(Traces) in c.connectors && POST_GROUP_BY in c.connectors
    ensures Fit(streams, NamesOf(c), EXPORTING, ExportingPipeline(plan))
  {
    RootNamesAllDiffer();
    LevelOfRouter(Traces);
    assert OTLP != POST_GROUP_BY by { assert |OTLP| == 4; }
  }

  lemma StreamFits(i: Inputs, c: Config, stream: DataStream, s: Signal)
    requires Relied(i) && Apart(NamesOf(c)) && BATCH in c.processors && Router(s) in c.connectors
    requires Within(NamesOf(WiringOf(i).config), NamesOf(c)) && stream in i.streams && s in SIGNALS
    ensures Fit(StreamNames(i.streams), NamesOf(c), StreamPipeline(s, stream),
        PipelineOf(WiringOf(i).forwards, stream, s))
  {
    var streams, w, n := StreamNames(i.streams), WiringOf(i), StreamPipeline(s, stream);
    var p := PipelineOf(w.forwards, stream, s);
    PlanIsDefined(i);
    assert n in streams && Rank(streams, n) == 2;
    LevelOfRouter(s);
    OwnProcessorsHaveNoSlash();
    assert OTLP != Router(s) by { assert |OTLP| == 4; }
    forall e | e in p.exporters ensures e in c.connectors && Level(e) > 2 {
      ExportsToItsDestinations(w, stream, s, e);
      var r :| r in w.routes && r.dest in stream.destinations && Carries(r.pipeline, s) && e == Forward(r.pipeline);
      assert RouteWired(streams, w.config, r);
      LevelOfForward(r.pipeline);
      NotPostGroupBy(r.pipeline, s);
    }
  }

  lemma NotPostGroupBy(n: Name, s: Signal)
    requires Carries(n, s)
    ensures n != "traces-post-groupby"
  {
    assert n[|SignalName(s)|] == '/';
    assert '/' in n;
  }

  // ---------- the rooted configuration ----------

  lemma RootedIsSound(i: Inputs)
    requires Relied(i)
    ensures Sound(StreamNames(i.streams), Rooted(i))
  {
    RootedIsApart(i);
    forall n | n in Rooted(i).pipelines
      ensures Fit(StreamNames(i.streams), NamesOf(Rooted(i)), n, Rooted(i).pipelines[n])
    {
      RootedPipelineFits(i, n);
    }
  }

  lemma RootedPipelineFits(i: Inputs, n: Name)
    requires Relied(i) && n in Rooted(i).pipelines
    ensures Fit(StreamNames(i.streams), NamesOf(Rooted(i)), n, Rooted(i).pipelines[n])
  {
    var w, plan := WiringOf(i), PlanOf(i);
    RootedIsApart(i);
    if n in Roots(plan) {
      RootPipelineFits(i, n);
    } else if n in OfStreams(w.forwards, i.streams) {
      EveryPipelineHasAStream(w.forwards, i.streams, n);
      var d, s :| d in i.streams && s in SIGNALS &&
        IsStreamPipeline(w.forwards, d, s, n, OfStreams(w.forwards, i.streams)[n]);
      StreamsHaveRouters(i, d, s);
      RootConnectorsAre(plan);
      StreamFits(i, Rooted(i), d, s);
    } else {
      PlanIsDefined(i);
      StaysFit(StreamNames(i.streams), NamesOf(w.config), NamesOf(Rooted(i)), n, w.config.pipelines[n]);
    }
  }

  lemma RootPipelineFits(i: Inputs, n: Name)
    requires Relied(i) && n in Roots(PlanOf(i))
    ensures Fit(StreamNames(i.streams), NamesOf(Rooted(i)), n, Roots(PlanOf(i))[n])
  {
    var plan := PlanOf(i);
    RootedIsApart(i);
    RootConnectorsAre(plan);
    RootsAre(plan);
    if n == EXPORTING {
      ExportingFits(StreamNames(i.streams), Rooted(i), plan);
    } else {
      var s :| s in plan.enabled && n == RootName(s);
      RootFits(StreamNames(i.streams), Rooted(i), plan, s);
    }
  }

  lemma RootedIsApart(i: Inputs)
    requires Relied(i)
    ensures var c := Rooted(i);
      && Apart(NamesOf(c)) && Within(NamesOf(WiringOf(i).config), NamesOf(c)) && ClosedExtensions(c)
      && PlanFits(PlanOf(i), c) && BATCH in c.processors && OTLP in c.receivers
      && (forall k :: k in RootConnectors(PlanOf(i)) ==> k in c.connectors)
  {
    var w := WiringOf(i);
    PlanIsDefined(i);
    WireAllGrows(StreamNames(i.streams), Wiring0(i), i.configurers, i.dests);
    InsertingRootsKeeps(WithTraceState(w.config, Enabled(w, i.options)), OfStreams(w.forwards, i.streams), PlanOf(i));
  }

  lemma InsertingRootsKeeps(c: Config, streams: Pipelines, plan: Plan)
    requires Apart(NamesOf(c)) && ClosedExtensions(c) && PlanFits(plan, c)
    ensures var d := InsertRoots(c.(pipelines := c.pipelines + streams), plan);
      && Apart(NamesOf(d)) && Within(NamesOf(c), NamesOf(d)) && ClosedExtensions(d) && PlanFits(plan, d)
      && (forall k :: k in RootConnectors(plan) ==> k in d.connectors)
  {
    var d := InsertRoots(c.(pipelines := c.pipelines + streams), plan);
    RootConnectorsAre(plan);
    GatewayConnectorsStayApart(NamesOf(c), RootConnectors(plan).Keys);
    assert NamesOf(d) == NamesOf(c).(connectors := NamesOf(c).connectors + RootConnectors(plan).Keys);
  }

  /** A pipeline is a root, or of a stream, or of a destination, in this order. */
  lemma RootedLookup(i: Inputs, n: Name)
    ensures var w, c := WiringOf(i), Rooted(i);
      && (n in c.pipelines <==>
            n in Roots(PlanOf(i)) || n in OfStreams(w.forwards, i.streams) || n in w.config.pipelines)
      && (n in Roots(PlanOf(i)) ==> c.pipelines[n] == Roots(PlanOf(i))[n])
      && (n !in Roots(PlanOf(i)) && n in OfStreams(w.forwards, i.streams) ==>
        c.pipelines[n] == OfStreams(w.forwards, i.streams)[n])
      && (n !in Roots(PlanOf(i)) && n !in OfStreams(w.forwards, i.streams) && n in w.config.pipelines ==>
            c.pipelines[n] == w.config.pipelines[n])
  {
  }

  lemma StreamPipelinesAreNamed(i: Inputs, n: Name)
    requires n in OfStreams(WiringOf(i).forwards, i.streams)
    ensures n in StreamNames(i.streams)
  {
    EveryPipelineHasAStream(WiringOf(i).forwards, i.streams, n);
  }

  lemma DestinationPipelinesAreFree(i: Inputs, n: Name)
    requires Relied(i) && n in WiringOf(i).config.pipelines
    ensures FreeName(StreamNames(i.streams), n)
  {
    PlanIsDefined(i);
  }

  lemma RootsAreRoots(plan: Plan, n: Name)
    requires n in Roots(plan)
    ensures n == EXPORTING || IsRoot(n)
    ensures n !in {SERVICE_GRAPH_PIPELINE, CORRELATIONS_PIPELINE}
  {
    RootsAre(plan);
    forall s: Signal ensures RootName(s) != SERVICE_GRAPH_PIPELINE && RootName(s) != CORRELATIONS_PIPELINE {
      RootNamesDiffer(s, s);
    }
    assert EXPORTING[0] == 't' && SERVICE_GRAPH_PIPELINE[0] == 'm' && CORRELATIONS_PIPELINE[0] == 'm';
  }

  /** The names of the sink pipelines are still free when they are inserted. */
  lemma SinksAreNew(i: Inputs)
    requires Relied(i)
    ensures SERVICE_GRAPH_PIPELINE !in Rooted(i).pipelines && CORRELATIONS_PIPELINE !in Rooted(i).pipelines
  {
    forall n | n in Rooted(i).pipelines ensures n !in {SERVICE_GRAPH_PIPELINE, CORRELATIONS_PIPELINE} {
      RootedLookup(i, n);
      if n in Roots(PlanOf(i)) {
        RootsAreRoots(PlanOf(i), n);
      } else if n in OfStreams(WiringOf(i).forwards, i.streams) {
        StreamPipelinesAreNamed(i, n);
      } else {
        DestinationPipelinesAreFree(i, n);
      }
    }
  }

  /** What becomes of the rooted configuration. */
  lemma CompiledFromRooted(i: Inputs)
    requires Relied(i) && Compile(i).config.Ok?
    ensures Sound(StreamNames(i.streams), Compile(i).config.value)
    ensures Later(StreamNames(i.streams), Rooted(i), Compile(i).config.value)
  {
    var streams, c := StreamNames(i.streams), WithSelfTelemetry(i).value;
    CompiledIsLater(i);
    if i.selfTelemetry.None? {
      SameStaysLater(streams, Rooted(i), c);
    }
    LaterTransitive(streams, Rooted(i), c, Compile(i).config.value);
  }

  /** What becomes of the configuration the callback has left. */
  lemma CompiledIsLater(i: Inputs)
    requires Relied(i) && Compile(i).config.Ok?
    ensures Sound(StreamNames(i.streams), Compile(i).config.value)
    ensures Later(StreamNames(i.streams), WithSelfTelemetry(i).value, Compile(i).config.value)
  {
    var streams, c := StreamNames(i.streams), WithSelfTelemetry(i).value;
    RootedIsSound(i);
    SinksAreNew(i);
    if i.selfTelemetry.Some? {
      BenignKeeps(streams, Rooted(i), c);
    }
    FinishedKeeps(streams, c, i.options, Enabled(WiringOf(i), i.options));
  }

  // ---------- what holds of every compiled configuration ----------

  /**
   Whatever the destinations, streams, processors and options, everything named in a compiled
   configuration is defined in it.
   */
  lemma CompiledIsClosed(i: Inputs)
    requires Relied(i) && Compile(i).config.Ok?
    ensures ReferenceClosed(Compile(i).config.value)
  {
    CompiledFromRooted(i);
  }

  /** No path along connectors visits a pipeline twice or has more than five pipelines. */
  lemma CompiledIsAcyclic(i: Inputs, path: seq<Name>)
    requires Relied(i) && Compile(i).config.Ok? && IsPath(Compile(i).config.value, path)
    ensures Distinct(path) && |path| <= 5
  {
    CompiledFromRooted(i);
    var streams, c := StreamNames(i.streams), Compile(i).config.value;
    SoundIsGraded(streams, c);
    PathsAreShort(streams, c, path);
    forall j, k | 0 <= j < k < |path| ensures path[j] != path[k] {
      PathsAscend(streams, c, path, j, k);
    }
  }

  /** The route was wired for the destination at this point. */
  ghost predicate WiredBy(w: Wiring, configurers: Configurers, before: seq<Destination>, d: Destination, r: Route) {
    && d.kind in configurers && d.id == r.dest
    && var answer := configurers[d.kind](d, WireAll(w, configurers, before).config);
       answer.Configured? && r.pipeline in answer.pipelines
  }

  lemma {:induction false} RoutesOfNames(w: Wiring, id: string, names: seq<Name>, r: Route)
    ensures r in WireNames(w, id, names).routes <==> r in w.routes || (r.dest == id && r.pipeline in names)
  {
    if names != [] {
      var front, last := names[..|names| - 1], names[|names| - 1];
      assert names == front + [last];
      RoutesOfNames(w, id, front, r);
    }
  }

  /** The routes are those of the pipelines that successfully configured destinations returned. */
  lemma {:induction false} RoutesAre(w: Wiring, configurers: Configurers, dests: seq<Destination>, r: Route)
    requires w.routes == []
    ensures r in WireAll(w, configurers, dests).routes <==>
              exists k :: 0 <= k < |dests| && WiredBy(w, configurers, dests[..k], dests[k], r)
  {
    if dests != [] {
      var front, d := dests[..|dests| - 1], dests[|dests| - 1];
      RoutesAre(w, configurers, front, r);
      var before := WireAll(w, configurers, front);
      if d.kind in configurers && configurers[d.kind](d, before.config).Configured? {
        var answer := configurers[d.kind](d, before.config);
        RoutesOfNames(before.(config := answer.config), d.id, answer.pipelines, r);
      }
      assert r in WireAll(w, configurers, dests).routes <==> r in before.routes || WiredBy(w, configurers, front, d, r);
      assert dests[..|front|] == front && dests[|front|] == d;
      forall k | 0 <= k < |front| ensures front[..k] == dests[..k] && front[k] == dests[k] { }
    }
  }

  ghost predicate SameEnds(p: Pipeline, q: Pipeline) {
    (forall e :: e in p.exporters <==> e in q.exporters) && (forall r :: r in p.receivers <==> r in q.receivers)
  }

  /** A pipeline of a stream or destination keeps its two ends from where it is built to the end. */
  lemma EndsSurvive(i: Inputs, n: Name)
    requires Relied(i) && Compile(i).config.Ok? && !IsRoot(n) && n != EXPORTING && n in Rooted(i).pipelines
    ensures n in Compile(i).config.value.pipelines
    ensures SameEnds(Rooted(i).pipelines[n], Compile(i).config.value.pipelines[n])
  {
    CompiledFromRooted(i);
    RootNamesAllDiffer();
    assert Extends(n, Rooted(i).pipelines[n], Compile(i).config.value.pipelines[n]);
  }

  lemma StreamPipelineIsRooted(i: Inputs, stream: DataStream, s: Signal)
    requires Relied(i) && DistinctNames(i.streams) && stream in i.streams
    ensures var n, p := StreamPipeline(s, stream), PipelineOf(WiringOf(i).forwards, stream, s);
      && n in StreamNames(i.streams) && !IsRoot(n) && n != EXPORTING
      && (n in Rooted(i).pipelines <==> p.exporters != [])
      && (n in Rooted(i).pipelines ==> Rooted(i).pipelines[n] == p)
  {
    var n, w := StreamPipeline(s, stream), WiringOf(i);
    EveryStreamHasItsPipelines(w.forwards, i.streams, stream, s);
    EverySignal(s);
    assert n in StreamNames(i.streams);
    RootedLookup(i, n);
    if n in Roots(PlanOf(i)) {
      RootsAreRoots(PlanOf(i), n);
    }
    if n in w.config.pipelines {
      DestinationPipelinesAreFree(i, n);
    }
  }

  /** A stream has a pipeline for a signal iff one of its destinations has, and it exports to all of those. */
  lemma StreamPipelineSurvives(i: Inputs, stream: DataStream, s: Signal)
    requires Relied(i) && Compile(i).config.Ok? && DistinctNames(i.streams) && stream in i.streams
    ensures var n, p, c := StreamPipeline(s, stream), PipelineOf(WiringOf(i).forwards, stream, s),
        Compile(i).config.value;
      && (n in c.pipelines <==> p.exporters != [])
      && (n in c.pipelines ==> SameEnds(p, c.pipelines[n]))
  {
    var n := StreamPipeline(s, stream);
    StreamPipelineIsRooted(i, stream, s);
    CompiledFromRooted(i);
    if n in Rooted(i).pipelines {
      EndsSurvive(i, n);
    }
  }

  /** The pipeline that hands a signal over to the router. */
  function Handover(plan: Plan, s: Signal): Name {
    if s == Traces && IsSplit(plan) then EXPORTING else RootName(s)
  }

  lemma HandoverRoutes(plan: Plan, s: Signal)
    requires HasRouter(plan, s)
    ensures Handover(plan, s) in Roots(plan) && Router(s) in Roots(plan)[Handover(plan, s)].exporters
  {
    RootsAre(plan);
  }

  /**
   A stream has a pipeline for a signal only if the router of the signal is there and has something to
   hand over, also when traces are split and when they have no destination.
   */
  lemma StreamIsFed(i: Inputs, stream: DataStream, s: Signal)
    requires Relied(i) && Compile(i).config.Ok? && DistinctNames(i.streams) && stream in i.streams
    requires StreamPipeline(s, stream) in Compile(i).config.value.pipelines
    ensures Router(s) in Compile(i).config.value.connectors
    ensures Feeds(Compile(i).config.value, Handover(PlanOf(i), s), StreamPipeline(s, stream))
  {
    var c, plan := Compile(i).config.value, PlanOf(i);
    StreamPipelineSurvives(i, stream, s);
    StreamsHaveRouters(i, stream, s);
    HandoverRoutes(plan, s);
    RootConnectorsAre(plan);
    RootedIsApart(i);
    CompiledFromRooted(i);
    var a := Handover(plan, s);
    RootedLookup(i, a);
    assert Extends(a, Rooted(i).pipelines[a], c.pipelines[a]);
    assert Router(s) in c.pipelines[StreamPipeline(s, stream)].receivers;
    assert Router(s) in c.pipelines[a].exporters;
  }

  /** The pipeline of a route is there in the end, and still fed by the forward connector of its own. */
  lemma RouteSurvives(i: Inputs, r: Route)
    requires Relied(i) && Compile(i).config.Ok? && r in WiringOf(i).routes
    ensures var c := Compile(i).config.value;
      r.pipeline in c.pipelines && Forward(r.pipeline) in c.pipelines[r.pipeline].receivers &&
        Forward(r.pipeline) in c.connectors
  {
    PlanIsDefined(i);
    assert RouteWired(StreamNames(i.streams), WiringOf(i).config, r);
    DestinationPipelineSurvives(i, r.pipeline);
    CompiledFromRooted(i);
    RootedIsApart(i);
  }

  /**
   Routing isolation: the pipelines fed by the pipeline of a stream for a signal are exactly the pipelines
   of that signal that were wired for the destinations of the stream.
   */
  lemma StreamFeedsItsDestinations(i: Inputs, stream: DataStream, s: Signal, n: Name)
    requires Relied(i) && Compile(i).config.Ok? && DistinctNames(i.streams) && stream in i.streams
    ensures Feeds(Compile(i).config.value, StreamPipeline(s, stream), n) <==>
              exists r :: r in WiringOf(i).routes && r.dest in stream.destinations && Carries(r.pipeline, s) &&
                n == r.pipeline
  {
    var w, c, from := WiringOf(i), Compile(i).config.value, StreamPipeline(s, stream);
    var p := PipelineOf(w.forwards, stream, s);
    StreamPipelineSurvives(i, stream, s);
    PlanIsDefined(i);
    if Feeds(c, from, n) {
      var k :| k in c.connectors && k in c.pipelines[from].exporters && k in c.pipelines[n].receivers;
      assert k in p.exporters;
      ExportsToItsDestinations(w, stream, s, k);
      var r :| r in w.routes && r.dest in stream.destinations && Carries(r.pipeline, s) && k == Forward(r.pipeline);
      ForwardLeadsHome(i, r, n, s);
    }
    if r :| r in w.routes && r.dest in stream.destinations && Carries(r.pipeline, s) && n == r.pipeline {
      ExportsToItsDestinations(w, stream, s, Forward(r.pipeline));
      RouteSurvives(i, r);
      assert Forward(n) in c.connectors && Forward(n) in c.pipelines[from].exporters &&
        Forward(n) in c.pipelines[n].receivers;
    }
  }

  /** A forward connector leads nowhere but into its own pipeline. */
  lemma ForwardLeadsHome(i: Inputs, r: Route, n: Name, s: Signal)
    requires Relied(i) && Compile(i).config.Ok? && n in Compile(i).config.value.pipelines && Carries(r.pipeline, s)
    requires Forward(r.pipeline) in Compile(i).config.value.pipelines[n].receivers
    ensures n == r.pipeline
  {
    var c := Compile(i).config.value;
    CompiledFromRooted(i);
    assert Fit(StreamNames(i.streams), NamesOf(c), n, c.pipelines[n]);
    StartsWithForward(r.pipeline);
    OnlyItsForward(r.pipeline, n, s);
  }

  lemma StartsWithForward(n: Name)
    ensures FORWARD <= Forward(n)
  {
  }

  lemma PostGroupByIsOdd(a: Name)
    requires Forward(a) == POST_GROUP_BY
    ensures a == "traces-post-groupby"
  {
    assert POST_GROUP_BY == Forward("traces-post-groupby");
    ForwardIsInjective(a, "traces-post-groupby");
  }

  lemma OnlyItsForward(a: Name, b: Name, s: Signal)
    requires Carries(a, s) && (Forward(a) == Forward(b) || Forward(a) == POST_GROUP_BY)
    ensures a == b
  {
    if Forward(a) == Forward(b) {
      ForwardIsInjective(a, b);
    } else {
      NotPostGroupBy(a, s);
      PostGroupByIsOdd(a);
      assert false;
    }
  }

  // ---------- traces are put together before they are sampled ----------

  lemma OnlyRootsExportLow(streams: set<Name>, ns: Names, n: Name, p: Pipeline)
    requires Fit(streams, ns, n, p) && POST_GROUP_BY in p.exporters && POST_GROUP_BY in ns.connectors
    ensures IsRoot(n)
  {
  }

  lemma OnlyTracesRootForwards(plan: Plan, n: Name)
    requires n in Roots(plan) && IsRoot(n) && POST_GROUP_BY in Roots(plan)[n].exporters
    ensures n == RootName(Traces)
  {
    RootNamesAllDiffer();
    RootsAre(plan);
    var s :| s in plan.enabled && n == RootName(s);
    assert RootAt(plan, s).exporters == [Router(s)] || s == Traces;
  }

  lemma ExtendsNoForward(n: Name, p: Pipeline, q: Pipeline)
    requires Extends(n, p, q) && POST_GROUP_BY in q.exporters
    ensures POST_GROUP_BY in p.exporters
  {
  }

  /** A sound configuration that has grown from one with the roots of the plan. */
  ghost predicate GrownFrom(streams: set<Name>, plan: Plan, r: Config, c: Config) {
    && Sound(streams, c) && Later(streams, r, c)
    && (forall n :: n in Roots(plan) ==> n in r.pipelines)
    && (forall n :: n in r.pipelines && (IsRoot(n) || n == EXPORTING) ==>
      n in Roots(plan) && r.pipelines[n] == Roots(plan)[n])
  }

  lemma CompiledIsGrown(i: Inputs)
    requires Relied(i) && Compile(i).config.Ok?
    ensures GrownFrom(StreamNames(i.streams), PlanOf(i), Rooted(i), Compile(i).config.value)
  {
    CompiledFromRooted(i);
    forall n | n in Rooted(i).pipelines && (IsRoot(n) || n == EXPORTING)
      ensures n in Roots(PlanOf(i)) && Rooted(i).pipelines[n] == Roots(PlanOf(i))[n]
    {
      RootPipelinesAreRoots(i, n);
    }
    forall n | n in Roots(PlanOf(i)) ensures n in Rooted(i).pipelines {
      RootedLookup(i, n);
    }
  }

  /** Only traces/in feeds traces/exporting. */
  lemma OnlyTracesInForwards(streams: set<Name>, plan: Plan, r: Config, c: Config, a: Name)
    requires GrownFrom(streams, plan, r, c) && a in c.pipelines
    requires POST_GROUP_BY in c.pipelines[a].exporters && POST_GROUP_BY in c.connectors
    ensures a == RootName(Traces)
  {
    assert Fit(streams, NamesOf(c), a, c.pipelines[a]);
    OnlyRootsExportLow(streams, NamesOf(c), a, c.pipelines[a]);
    assert a in r.pipelines;
    ExtendsNoForward(a, r.pipelines[a], c.pipelines[a]);
    OnlyTracesRootForwards(plan, a);
  }

  /** What traces/exporting is in the end, if it is there: fed by traces/in alone. */
  lemma ExportingSurvives(streams: set<Name>, plan: Plan, r: Config, c: Config)
    requires GrownFrom(streams, plan, r, c) && EXPORTING in c.pipelines
    ensures IsSplit(plan) && forall k :: k in c.pipelines[EXPORTING].receivers ==> k == POST_GROUP_BY
    ensures Exporting(plan.traces) + plan.post <= c.pipelines[EXPORTING].processors
    ensures RootName(Traces) in c.pipelines &&
        [VERSION] + StayIn(plan.traces) <= c.pipelines[RootName(Traces)].processors
  {
    assert EXPORTING in r.pipelines;
    ExportingRoot(plan);
    assert Extends(EXPORTING, r.pipelines[EXPORTING], c.pipelines[EXPORTING]);
    ExportingExtends(r.pipelines[EXPORTING], c.pipelines[EXPORTING]);
    TracesRootSurvives(streams, plan, r, c);
  }

  lemma ExportingExtends(p: Pipeline, q: Pipeline)
    requires Extends(EXPORTING, p, q) && p.receivers == [POST_GROUP_BY]
    ensures p.processors <= q.processors && forall k :: k in q.receivers ==> k == POST_GROUP_BY
  {
    RootNamesAllDiffer();
  }

  lemma TracesRootSurvives(streams: set<Name>, plan: Plan, r: Config, c: Config)
    requires GrownFrom(streams, plan, r, c) && Traces in plan.enabled
    ensures RootName(Traces) in c.pipelines
    ensures Extends(RootName(Traces), RootAt(plan, Traces), c.pipelines[RootName(Traces)])
  {
    RootOf(plan, Traces);
    RootNamesAllDiffer();
    assert RootName(Traces) in r.pipelines;
  }

  lemma TwoThen<T>(a: T, b: T, s: seq<T>)
    ensures [a, b] + s == [a] + ([b] + s)
  {
  }

  lemma SoundIsGraded(streams: set<Name>, c: Config)
    requires Sound(streams, c)
    ensures AllGraded(streams, c)
  {
  }

  lemma PathToSamplerIsShort(streams: set<Name>, c: Config, path: seq<Name>)
    requires Sound(streams, c) && IsPath(c, path) && path[|path| - 1] == EXPORTING
    ensures |path| <= 2
  {
    SoundIsGraded(streams, c);
    if |path| > 1 {
      PathsAscend(streams, c, path, 0, |path| - 1);
    }
  }

  lemma FeedsExporting(c: Config, a: Name)
    requires Feeds(c, a, EXPORTING) && forall k :: k in c.pipelines[EXPORTING].receivers ==> k == POST_GROUP_BY
    ensures POST_GROUP_BY in c.pipelines[a].exporters && POST_GROUP_BY in c.connectors
  {
  }

  lemma SamplerIsExporting(streams: set<Name>, c: Config, n: Name)
    requires Sound(streams, c) && n in c.pipelines && TAIL_SAMPLING in c.pipelines[n].processors
    ensures n == EXPORTING
  {
  }

  lemma TwoPipelines(c: Config, path: seq<Name>)
    requires IsPath(c, path) && |path| <= 2 && path[|path| - 1] == EXPORTING && OTLP in c.pipelines[path[0]].receivers
    requires forall k :: k in c.pipelines[EXPORTING].receivers ==> k == POST_GROUP_BY
    ensures |path| == 2 && path == [path[0], EXPORTING] && Feeds(c, path[0], EXPORTING)
  {
  }

  lemma SampledPath(streams: set<Name>, plan: Plan, r: Config, c: Config, path: seq<Name>)
    requires GrownFrom(streams, plan, r, c) && IsPath(c, path)
    requires OTLP in c.pipelines[path[0]].receivers && TAIL_SAMPLING in c.pipelines[path[|path| - 1]].processors
    ensures path == [RootName(Traces), EXPORTING]
  {
    SamplerIsExporting(streams, c, path[|path| - 1]);
    ExportingSurvives(streams, plan, r, c);
    PathToSamplerIsShort(streams, c, path);
    TwoPipelines(c, path);
    FeedsExporting(c, path[0]);
    OnlyTracesInForwards(streams, plan, r, c, path[0]);
  }

  lemma {:induction false} StayInOfMore(a: seq<Name>, b: seq<Name>)
    ensures StayIn(a + b) == StayIn(a) + StayIn(b)
  {
    if b == [] {
      assert a + b == a;
    } else {
      assert (a + b)[..|a + b| - 1] == a + b[..|b| - 1];
      StayInOfMore(a, b[..|b| - 1]);
    }
  }

  /** The trace processors before the split: whole traces first, then all the resources but the batcher. */
  lemma TracesInProcessors(i: Inputs)
    requires TraceAggregationNeeded(i.options)
    ensures StayIn(PlanOf(i).traces) == [GROUP_BY_TRACE] + StayIn(Sorted(i.processors).tracesProcessors)
    ensures TAIL_SAMPLING in PlanOf(i).traces <==> On(i.options.tailSampling) && i.options.configExtension.Some?
  {
    var crd := Sorted(i.processors).tracesProcessors;
    PreparedFits(i);
    PreparedIs(Sorted(i.processors), i.options);
    NoOwnProcessors(i.processors);
    StayInAfterOwn(if On(i.options.tailSampling) && i.options.configExtension.Some? then [TAIL_SAMPLING] else [], crd);
  }

  lemma NoOwnProcessors(processors: seq<Processor>)
    ensures TAIL_SAMPLING !in Sorted(processors).tracesProcessors
  {
    OwnProcessorsHaveNoSlash();
    StagedAreDefined(processors, PreSpanMetrics, BASIC_CONFIG.(processors := Sorted(processors).processors));
  }

  lemma StayInAfterOwn(sampler: seq<Name>, crd: seq<Name>)
    requires sampler == [] || sampler == [TAIL_SAMPLING]
    ensures StayIn(sampler + [GROUP_BY_TRACE] + crd) == [GROUP_BY_TRACE] + StayIn(crd)
    ensures TAIL_SAMPLING !in crd ==> (TAIL_SAMPLING in sampler + [GROUP_BY_TRACE] + crd <==> sampler != [])
  {
    OwnProcessorsHaveNoSlash();
    assert GROUP_BY_TRACE[0] == 'g' && BATCH[0] == 'b';
    Regroup(sampler, [GROUP_BY_TRACE], crd, []);
    StayInOfMore(sampler, [GROUP_BY_TRACE] + crd);
    StayInOfMore([GROUP_BY_TRACE], crd);
    StayInOfOne(GROUP_BY_TRACE);
    StayInOfOne(TAIL_SAMPLING);
  }

  lemma StayInOfOne(p: Name)
    ensures StayIn([p]) == if IsExporting(p) then [] else [p]
  {
  }

  /**
   Traces are put together before they are sampled: every path of data from a pipeline that receives from
   otlp to one with the tail sampler is from traces/in to traces/exporting, and traces/in begins with
   the version, groupbytrace, and all the early trace processors but the batcher.
   */
  lemma AggregatedBeforeSampled(i: Inputs, path: seq<Name>)
    requires Relied(i) && Compile(i).config.Ok? && IsPath(Compile(i).config.value, path)
    requires OTLP in Compile(i).config.value.pipelines[path[0]].receivers
    requires TAIL_SAMPLING in Compile(i).config.value.pipelines[path[|path| - 1]].processors
    ensures path == [RootName(Traces), EXPORTING]
    ensures [VERSION, GROUP_BY_TRACE] + StayIn(Sorted(i.processors).tracesProcessors) <=
              Compile(i).config.value.pipelines[RootName(Traces)].processors
  {
    CompiledIsGrown(i);
    SampledPath(StreamNames(i.streams), PlanOf(i), Rooted(i), Compile(i).config.value, path);
    ExportingSurvives(StreamNames(i.streams), PlanOf(i), Rooted(i), Compile(i).config.value);
    TracesInProcessors(i);
    TwoThen(VERSION, GROUP_BY_TRACE, StayIn(Sorted(i.processors).tracesProcessors));
  }

  /**
   With tail sampling installed and a destination for traces, traces/exporting begins with the sampler,
   then the batcher if there is one, then the late trace processors.
   */
  lemma SamplerComesFirst(i: Inputs)
    requires Relied(i) && Compile(i).config.Ok?
    requires On(i.options.tailSampling) && i.options.configExtension.Some? && Traces in WiringOf(i).signals
    ensures var c := Compile(i).config.value;
      && EXPORTING in c.pipelines
      && [TAIL_SAMPLING] + (if BATCH in Sorted(i.processors).tracesProcessors then [BATCH] else []) +
         (Sorted(i.processors).tracesProcessorsPostSpanMetrics + [TRACE_STATE]) <= c.pipelines[EXPORTING].processors
  {
    var crd, plan := Sorted(i.processors), PlanOf(i);
    RootsAre(plan);
    CompiledIsGrown(i);
    ExportingSurvives(StreamNames(i.streams), plan, Rooted(i), Compile(i).config.value);
    TracesInProcessors(i);
    BatcherIsKept(i);
  }

  lemma BatcherIsKept(i: Inputs)
    ensures BATCH in PlanOf(i).traces <==> BATCH in Sorted(i.processors).tracesProcessors
  {
  }

  /** Splitting a compiled plan loses nothing unless two resources are the generic batcher. */
  lemma PlanSplitConserves(i: Inputs)
    ensures TracesSplit.Split(PlanOf(i).traces, PlanOf(i).post) ==
        multiset(PlanOf(i).traces) + multiset(PlanOf(i).post) <==>
              multiset(Sorted(i.processors).tracesProcessors)[BATCH] <= 1
  {
    var crd, own := Sorted(i.processors).tracesProcessors, OwnTraces(i.options);
    PreparedFits(i);
    PreparedIs(Sorted(i.processors), i.options);
    OwnProcessorsHaveNoSlash();
    PlanHasNoSampler(i);
    StagedAreDefined(i.processors, PreSpanMetrics, BASIC_CONFIG.(processors := Sorted(i.processors).processors));
    assert PlanOf(i).traces == own + crd;
    assert multiset(own + crd) == multiset(own) + multiset(crd);
    assert TAIL_SAMPLING !in crd;
    SplitConserves(PlanOf(i).traces, PlanOf(i).post);
  }

  /** What the gateway itself puts before the trace processors. */
  function OwnTraces(o: Options): (own: seq<Name>)
    ensures multiset(own)[TAIL_SAMPLING] <= 1 && multiset(own)[BATCH] == 0
  {
    var sampler := if On(o.tailSampling) && o.configExtension.Some? then [TAIL_SAMPLING] else [];
    var group := if TraceAggregationNeeded(o) then [GROUP_BY_TRACE] else [];
    assert GROUP_BY_TRACE[0] == 'g' && BATCH[0] == 'b' && TAIL_SAMPLING[0] == 'o';
    sampler + group
  }

  /**
   The signals advertised to the agents are those of wired destination pipelines, and traces when insights
   taps them; and those are the signals the gateway has a root pipeline for, which receives from otlp.
   */
  lemma AdvertisedSignalsAreReceived(i: Inputs, s: Signal)
    requires Relied(i) && Compile(i).config.Ok?
    ensures s in Compile(i).signals <==>
              (exists r :: r in WiringOf(i).routes && Carries(r.pipeline, s)) || (s == Traces && On(i.options.insights))
    ensures s in Compile(i).signals <==> RootName(s) in Compile(i).config.value.pipelines
    ensures s in Compile(i).signals ==> OTLP in Compile(i).config.value.pipelines[RootName(s)].receivers
  {
    AdvertisedAreEnabled(i, s);
    EnabledAre(i, s);
    CompiledIsGrown(i);
    RootIsReceived(StreamNames(i.streams), PlanOf(i), Rooted(i), Compile(i).config.value, s);
  }

  lemma AdvertisedAreEnabled(i: Inputs, s: Signal)
    requires Compile(i).config.Ok?
    ensures s in Compile(i).signals <==> s in PlanOf(i).enabled
  {
    OrderedAre(PlanOf(i).enabled, s);
  }

  lemma OrderedAre(enabled: set<Signal>, s: Signal)
    ensures s in SignalsInOrder(enabled) <==> s in enabled
  {
  }

  lemma EnabledAre(i: Inputs, s: Signal)
    requires Relied(i)
    ensures s in PlanOf(i).enabled <==>
              (exists r :: r in WiringOf(i).routes && Carries(r.pipeline, s)) || (s == Traces && On(i.options.insights))
  {
    PlanIsDefined(i);
  }

  lemma RootIsReceived(streams: set<Name>, plan: Plan, r: Config, c: Config, s: Signal)
    requires GrownFrom(streams, plan, r, c)
    ensures RootName(s) in c.pipelines <==> s in plan.enabled
    ensures s in plan.enabled ==> OTLP in c.pipelines[RootName(s)].receivers
  {
    var root := RootName(s);
    RootNamesAllDiffer();
    RootsAre(plan);
    if root in r.pipelines {
      assert Extends(root, r.pipelines[root], c.pipelines[root]);
      assert OTLP == r.pipelines[root].receivers[0] == c.pipelines[root].receivers[0];
    }
  }

  lemma RootPipelinesAreRoots(i: Inputs, n: Name)
    requires Relied(i) && n in Rooted(i).pipelines && (IsRoot(n) || n == EXPORTING)
    ensures n in Roots(PlanOf(i)) && Rooted(i).pipelines[n] == Roots(PlanOf(i))[n]
  {
    RootedLookup(i, n);
    if n in OfStreams(WiringOf(i).forwards, i.streams) {
      StreamPipelinesAreNamed(i, n);
    } else if n in WiringOf(i).config.pipelines {
      DestinationPipelinesAreFree(i, n);
    }
  }

  /** A pipeline of a destination survives to the end, with the two ends it was wired with. */
  lemma DestinationPipelineSurvives(i: Inputs, n: Name)
    requires Relied(i) && Compile(i).config.Ok? && n in WiringOf(i).config.pipelines
    ensures n in Compile(i).config.value.pipelines
    ensures SameEnds(WiringOf(i).config.pipelines[n], Compile(i).config.value.pipelines[n])
  {
    DestinationPipelinesAreFree(i, n);
    RootedLookup(i, n);
    if n in Roots(PlanOf(i)) {
      RootsAreRoots(PlanOf(i), n);
    } else if n in OfStreams(WiringOf(i).forwards, i.streams) {
      StreamPipelinesAreNamed(i, n);
    }
    EndsSurvive(i, n);
  }

  /** A pipeline of a destination is fed by its own forward connector if and only if it was wired. */
  lemma ForwardedIffRouted(i: Inputs, n: Name)
    requires Relied(i) && Compile(i).config.Ok? && n in WiringOf(i).config.pipelines
    ensures n in Compile(i).config.value.pipelines
    ensures Forward(n) in Compile(i).config.value.pipelines[n].receivers <==>
              exists r :: r in WiringOf(i).routes && r.pipeline == n
  {
    DestinationPipelineSurvives(i, n);
    WireAllForwards(StreamNames(i.streams), Wiring0(i), i.configurers, i.dests);
    if r :| r in WiringOf(i).routes && r.pipeline == n {
      RouteSurvives(i, r);
    }
  }

  /**
   A configurer that rejects after it has added a pipeline leaves it in the compiled configuration, with
   the ends it gave it and no forward connector; so a pipeline without receivers stays without.
   */
  lemma RejectedPipelineStays(i: Inputs, k: nat, n: Name)
    requires Relied(i) && Compile(i).config.Ok? && k < |i.dests| && i.dests[k].kind in i.configurers
    requires var before := WireAll(Wiring0(i), i.configurers, i.dests[..k]).config;
      var answer := i.configurers[i.dests[k].kind](i.dests[k], before);
      answer.Rejected? && n in answer.config.pipelines
    ensures var before := WireAll(Wiring0(i), i.configurers, i.dests[..k]).config;
      var answer := i.configurers[i.dests[k].kind](i.dests[k], before);
      n in Compile(i).config.value.pipelines &&
        SameEnds(answer.config.pipelines[n], Compile(i).config.value.pipelines[n])
    ensures n !in WireAll(Wiring0(i), i.configurers, i.dests[..k]).config.pipelines ==>
              Forward(n) !in Compile(i).config.value.pipelines[n].receivers
  {
    RejectedIsNotWired(StreamNames(i.streams), Wiring0(i), i.configurers, i.dests, k, n);
    DestinationPipelineSurvives(i, n);
  }
}
