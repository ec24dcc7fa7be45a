/**
 What the compiled gateway configuration looks like, read off the inputs pipeline by pipeline
 (`common/pipelinegen/config_builder.go`): which processors run in which root and in which order, what
 each destination's pipeline becomes, what taps which pipeline, and what is reported of destinations and
 processors. Nothing here is said in terms of the stages that `GatewayConfig` builds it in.
 */
module GatewayBlueprint {
  import opened Wrappers
  import opened CollectorConfig
  import opened CrdProcessors
  import opened TracesSplit
  import opened DestinationWiring
  import opened DataStreamPipelines
  import opened GatewayConfig
  import opened GatewaySoundness
  import opened GatewayCallback

  // ---------- roots, before the callback ----------

  /** The resource converts, and says that it is for the signal. */
  predicate For(s: Signal, p: Processor) {
    p.config.Ok? && p.config.value.Some? && s in p.signals
  }

  /** The resources for a signal, in order. */
  function KeysFor(i: Inputs, s: Signal): seq<Name> {
    KeysOf(i.processors, p => For(s, p))
  }

  /** The resources for traces with an order hint below 10. */
  function Early(i: Inputs): seq<Name> {
    KeysOf(i.processors, p => For(Traces, p) && p.orderHint < 10)
  }

  /** The resources for traces with an order hint from 10 on. */
  function Late(i: Inputs): seq<Name> {
    KeysOf(i.processors, p => For(Traces, p) && p.orderHint >= 10)
  }

  /** There is a destination's pipeline for the signal. */
  ghost predicate Wanted(i: Inputs, s: Signal) {
    exists r :: r in WiringOf(i).routes && Carries(r.pipeline, s)
  }

  predicate Aggregated(o: Options) {
    o.tailSampling == Some(true) || o.serviceIO == Some(true) || o.insights == Some(true)
  }

  lemma KeysForIs(i: Inputs, s: Signal)
    ensures KeysFor(i, s) == Staged(i.processors, Other(s))
    ensures Early(i) == Staged(i.processors, PreSpanMetrics) && Late(i) == Staged(i.processors, PostSpanMetrics)
  {
    StagedIsKeysOf(i.processors, Other(s), p => For(s, p));
    StagedIsKeysOf(i.processors, PreSpanMetrics, p => For(Traces, p) && p.orderHint < 10);
    StagedIsKeysOf(i.processors, PostSpanMetrics, p => For(Traces, p) && p.orderHint >= 10);
  }

  lemma RootLookup(i: Inputs, s: Signal)
    requires Relied(i)
    ensures RootName(s) in Rooted(i).pipelines <==> Wanted(i, s) || (s == Traces && i.options.insights == Some(true))
    ensures RootName(s) in Rooted(i).pipelines ==> Rooted(i).pipelines[RootName(s)] == RootAt(PlanOf(i), s)
    ensures PlanOf(i).hasTracesDestination <==> Wanted(i, Traces)
  {
    EnabledAre(i, s);
    PlanIsDefined(i);
    RootOf(PlanOf(i), s);
    RootNamesAllDiffer();
    RootedLookup(i, RootName(s));
    if RootName(s) in Rooted(i).pipelines {
      RootPipelinesAreRoots(i, RootName(s));
    }
  }

  /** A root of a wanted signal runs exactly the resources for that signal, in order, after the version. */
  lemma RootIs(i: Inputs, s: Signal)
    requires Relied(i) && s != Traces && Wanted(i, s)
    ensures RootName(s) in Rooted(i).pipelines
    ensures Rooted(i).pipelines[RootName(s)] == Pipeline([OTLP], [VERSION] + KeysFor(i, s), [Router(s)])
  {
    RootLookup(i, s);
    KeysForIs(i, s);
  }

  /**
   The root of traces. Without aggregation it runs the early resources, the late ones and the trace state.
   With it, it puts traces together and runs the early resources but the batcher; traces/exporting, if there
   is a destination, runs the sampler, the batcher, the late resources and the trace state.
   */
  lemma TracesRootIs(i: Inputs)
    requires Relied(i) && (Wanted(i, Traces) || i.options.insights == Some(true))
    ensures var c, early, late := Rooted(i), Early(i), Late(i);
      && RootName(Traces) in c.pipelines
      && c.pipelines[RootName(Traces)] ==
         (if !Aggregated(i.options) then Pipeline([OTLP], [VERSION] + early + late + [TRACE_STATE], [Router(Traces)])
          else Pipeline([OTLP], [VERSION, GROUP_BY_TRACE] + StayIn(early),
                 if Wanted(i, Traces) then [POST_GROUP_BY] else []))
      && (EXPORTING in c.pipelines <==> Aggregated(i.options) && Wanted(i, Traces))
      && (EXPORTING in c.pipelines ==> c.pipelines[EXPORTING] == ExportingIs(i.options, early, late))
  {
    RootLookup(i, Traces);
    KeysForIs(i, Traces);
    TracesPlanIs(i, Early(i), Late(i));
    TracesRootAt(PlanOf(i), Early(i), Late(i));
    ExportingLookup(i);
  }

  lemma TracesRootAt(plan: Plan, early: seq<Name>, late: seq<Name>)
    requires plan.post == late + [TRACE_STATE]
    requires if plan.aggregated then StayIn(plan.traces) == [GROUP_BY_TRACE] + StayIn(early) else plan.traces == early
    ensures RootAt(plan, Traces) ==
         (if !plan.aggregated then Pipeline([OTLP], [VERSION] + early + late + [TRACE_STATE], [Router(Traces)])
          else Pipeline([OTLP], [VERSION, GROUP_BY_TRACE] + StayIn(early),
                 if plan.hasTracesDestination then [POST_GROUP_BY] else []))
  {
    if !plan.aggregated {
      assert [VERSION] + (early + (late + [TRACE_STATE])) == [VERSION] + early + late + [TRACE_STATE];
    } else {
      TwoThen(VERSION, GROUP_BY_TRACE, StayIn(early));
    }
  }

  function ExportingIs(o: Options, early: seq<Name>, late: seq<Name>): Pipeline {
    Pipeline([POST_GROUP_BY],
      (if o.tailSampling == Some(true) && o.configExtension.Some? then [TAIL_SAMPLING] else []) +
      (if BATCH in early then [BATCH] else []) + late + [TRACE_STATE],
      [Router(Traces)])
  }

  lemma ExportingLookup(i: Inputs)
    requires Relied(i)
    ensures EXPORTING in Rooted(i).pipelines <==> IsSplit(PlanOf(i))
    ensures IsSplit(PlanOf(i)) ==> Rooted(i).pipelines[EXPORTING] == ExportingPipeline(PlanOf(i))
  {
    ExportingRoot(PlanOf(i));
    RootedLookup(i, EXPORTING);
    if EXPORTING in Rooted(i).pipelines {
      RootPipelinesAreRoots(i, EXPORTING);
    }
  }

  lemma TracesPlanIs(i: Inputs, early: seq<Name>, late: seq<Name>)
    requires Relied(i) && (Wanted(i, Traces) || i.options.insights == Some(true))
    requires early == Staged(i.processors, PreSpanMetrics) && late == Staged(i.processors, PostSpanMetrics)
    ensures var plan := PlanOf(i);
      && Traces in plan.enabled && plan.post == late + [TRACE_STATE] && plan.aggregated == Aggregated(i.options)
      && (!plan.aggregated ==> plan.traces == early)
      && (plan.aggregated ==>
            StayIn(plan.traces) == [GROUP_BY_TRACE] + StayIn(early) &&
            Exporting(plan.traces) + plan.post == ExportingIs(i.options, early, late).processors)
  {
    EnabledAre(i, Traces);
    if Aggregated(i.options) {
      TracesInProcessors(i);
      BatcherIsKept(i);
      Regroup(Exporting(PlanOf(i).traces), late, [TRACE_STATE], []);
    }
  }

  // ---------- what is added after the callback ----------

  /** The service graph is wanted, and the collector scrapes its own metrics, so that it can be exported. */
  predicate Graphed(c: Config, o: Options, enabled: set<Signal>) {
    && Traces in enabled && o.serviceGraphDisabled != Some(true)
    && SELF_METRICS in c.receivers && c.receivers[SELF_METRICS].Scraping?
  }

  /** The graph is computed of what is exported, after sampling, if traces are split. */
  function GraphTap(c: Config): Name { if EXPORTING in c.pipelines then EXPORTING else RootName(Traces) }

  predicate Correlated(o: Options, enabled: set<Signal>) { Traces in enabled && o.serviceIO == Some(true) }

  predicate Clustered(o: Options, enabled: set<Signal>) { Metrics in enabled && o.clusterMetrics == Some(true) }

  /**
   Of the pipelines there are, the metrics root also receives the cluster's metrics, one traces pipeline
   feeds the service graph, and the traces root feeds the correlations; nothing else about them is new.
   */
  lemma FinishedPipelineIs(c: Config, o: Options, enabled: set<Signal>, n: Name)
    requires n !in {SERVICE_GRAPH_PIPELINE, CORRELATIONS_PIPELINE}
    ensures var d := Finished(c, o, enabled);
      && (n in d.pipelines <==> n in c.pipelines)
      && (n in c.pipelines ==>
            var p, q := c.pipelines[n], d.pipelines[n];
            && q.processors == p.processors
            && q.receivers ==
               p.receivers + (if Clustered(o, enabled) && n == RootName(Metrics) then [CLUSTER_RECEIVER] else [])
            && q.exporters ==
               p.exporters + (if Graphed(c, o, enabled) && n == GraphTap(c) then [SERVICE_GRAPH] else [])
               + (if Correlated(o, enabled) && n == RootName(Traces) && SERVICE_IO !in p.exporters
                  then [SERVICE_IO] else []))
  {
    var graphed := if Traces in enabled && !On(o.serviceGraphDisabled) then InsertServiceGraph(c, o) else c;
    var correlated := if Traces in enabled then InsertServiceIO(graphed, o) else graphed;
    GraphedPipelineIs(c, o, enabled, n);
    CorrelatedPipelineIs(graphed, o, enabled, n);
    ClusteredPipelineIs(correlated, o, enabled, n);
    SinksAreLevelFour();
    assert |SERVICE_GRAPH| == 12 && |SERVICE_IO| == 9;
  }

  lemma GraphedPipelineIs(c: Config, o: Options, enabled: set<Signal>, n: Name)
    requires n !in {SERVICE_GRAPH_PIPELINE, CORRELATIONS_PIPELINE}
    ensures var d := if Traces in enabled && !On(o.serviceGraphDisabled) then InsertServiceGraph(c, o) else c;
      && (n in d.pipelines <==> n in c.pipelines)
      && (n in c.pipelines ==> d.pipelines[n] == c.pipelines[n].(exporters := c.pipelines[n].exporters +
            if Graphed(c, o, enabled) && n == GraphTap(c) then [SERVICE_GRAPH] else []))
  {
    RootNamesAllDiffer();
    assert EXPORTING[0] == 't' && RootName(Traces)[0] == 't' && SERVICE_GRAPH_PIPELINE[0] == 'm';
    if Graphed(c, o, enabled) {
      PipedGraphIs(c, o);
    }
    if n in c.pipelines {
      assert c.pipelines[n].exporters + [] == c.pipelines[n].exporters;
    }
  }

  lemma PipedGraphIs(c: Config, o: Options)
    requires AddServiceGraphScrapeConfig(ExposeServiceGraph(c)).Some?
    ensures var scraped := AddServiceGraphScrapeConfig(ExposeServiceGraph(c)).value;
      PipeServiceGraph(ConnectServiceGraph(scraped), o).pipelines ==
        c.pipelines[SERVICE_GRAPH_PIPELINE := ServiceGraphPipeline(InsightsOn(o))]
  {
  }

  lemma CorrelatedPipelineIs(c: Config, o: Options, enabled: set<Signal>, n: Name)
    requires n !in {SERVICE_GRAPH_PIPELINE, CORRELATIONS_PIPELINE}
    ensures var d := if Traces in enabled then InsertServiceIO(c, o) else c;
      && (n in d.pipelines <==> n in c.pipelines)
      && (n in c.pipelines ==> d.pipelines[n] == c.pipelines[n].(exporters := c.pipelines[n].exporters +
            if Correlated(o, enabled) && n == RootName(Traces) && SERVICE_IO !in c.pipelines[n].exporters
            then [SERVICE_IO] else []))
  {
    assert RootName(Traces)[0] == 't' && CORRELATIONS_PIPELINE[0] == 'm';
    if n in c.pipelines {
      assert c.pipelines[n].exporters + [] == c.pipelines[n].exporters;
    }
  }

  lemma ClusteredPipelineIs(c: Config, o: Options, enabled: set<Signal>, n: Name)
    ensures var clustered := if Metrics in enabled && On(o.clusterMetrics) then InsertClusterMetrics(c) else c;
      var d := AddConfigExtension(clustered, o);
      && (n in d.pipelines <==> n in c.pipelines)
      && (n in c.pipelines ==> d.pipelines[n] == c.pipelines[n].(receivers := c.pipelines[n].receivers +
            if Clustered(o, enabled) && n == RootName(Metrics) then [CLUSTER_RECEIVER] else []))
  {
    if n in c.pipelines {
      assert c.pipelines[n].receivers + [] == c.pipelines[n].receivers;
    }
  }

  /** The two pipelines of sinks, and the scraper that the service graph is read by. */
  lemma SinksAre(c: Config, o: Options, enabled: set<Signal>)
    ensures var d := Finished(c, o, enabled);
      var insights := o.insights == Some(true) && o.insightsEndpoint != "";
      && (Graphed(c, o, enabled) ==>
            && SERVICE_GRAPH_PIPELINE in d.pipelines && SELF_METRICS in d.receivers
            && d.pipelines[SERVICE_GRAPH_PIPELINE] ==
               Pipeline([SERVICE_GRAPH], if insights then [POD_NAME] else [],
                 if insights then [SERVICE_GRAPH_EXPORTER, INSIGHTS_EXPORTER] else [SERVICE_GRAPH_EXPORTER])
            && d.receivers[SELF_METRICS] == Scraping(c.receivers[SELF_METRICS].jobs + [SERVICE_GRAPH]))
      && (Correlated(o, enabled) ==>
            && CORRELATIONS_PIPELINE in d.pipelines
            && d.pipelines[CORRELATIONS_PIPELINE] == Pipeline([SERVICE_IO], [], [CORRELATIONS_EXPORTER]))
      && (!Graphed(c, o, enabled) && SELF_METRICS in c.receivers ==>
            SELF_METRICS in d.receivers && d.receivers[SELF_METRICS] == c.receivers[SELF_METRICS])
      && (!Graphed(c, o, enabled) && SERVICE_GRAPH_PIPELINE !in c.pipelines ==>
            SERVICE_GRAPH_PIPELINE !in d.pipelines)
      && (!Correlated(o, enabled) && CORRELATIONS_PIPELINE !in c.pipelines ==> CORRELATIONS_PIPELINE !in d.pipelines)
  {
    var graphed := if Traces in enabled && !On(o.serviceGraphDisabled) then InsertServiceGraph(c, o) else c;
    var correlated := if Traces in enabled then InsertServiceIO(graphed, o) else graphed;
    GraphSinkIs(c, o, enabled);
    CorrelationSinkIs(graphed, o, enabled);
    LastSinksStay(correlated, o, enabled);
  }

  lemma GraphSinkIs(c: Config, o: Options, enabled: set<Signal>)
    ensures var d := if Traces in enabled && !On(o.serviceGraphDisabled) then InsertServiceGraph(c, o) else c;
      var insights := o.insights == Some(true) && o.insightsEndpoint != "";
      if Graphed(c, o, enabled) then
        && SERVICE_GRAPH_PIPELINE in d.pipelines && SELF_METRICS in d.receivers
        && d.pipelines[SERVICE_GRAPH_PIPELINE] ==
           Pipeline([SERVICE_GRAPH], if insights then [POD_NAME] else [],
             if insights then [SERVICE_GRAPH_EXPORTER, INSIGHTS_EXPORTER] else [SERVICE_GRAPH_EXPORTER])
        && d.receivers == c.receivers[SELF_METRICS := Scraping(c.receivers[SELF_METRICS].jobs + [SERVICE_GRAPH])]
        && (CORRELATIONS_PIPELINE !in c.pipelines ==> CORRELATIONS_PIPELINE !in d.pipelines)
      else d.pipelines == c.pipelines && d.receivers == c.receivers
  {
    if Graphed(c, o, enabled) {
      var scraped := AddServiceGraphScrapeConfig(ExposeServiceGraph(c)).value;
      var piped := PipeServiceGraph(ConnectServiceGraph(scraped), o);
      PipedGraphIs(c, o);
      assert piped.receivers == scraped.receivers;
      assert |SERVICE_GRAPH_PIPELINE| != |CORRELATIONS_PIPELINE|;
      TappedSinksStay(piped);
    }
  }

  lemma TappedSinksStay(c: Config)
    ensures var d := AddExporter(c, TracesPipelineForDownstreamConnectors(c), SERVICE_GRAPH);
      && d.pipelines.Keys == c.pipelines.Keys && d.receivers == c.receivers
      && (SERVICE_GRAPH_PIPELINE in c.pipelines ==>
            d.pipelines[SERVICE_GRAPH_PIPELINE] == c.pipelines[SERVICE_GRAPH_PIPELINE])
  {
    assert EXPORTING[0] == 't' && RootName(Traces)[0] == 't' && SERVICE_GRAPH_PIPELINE[0] == 'm';
  }

  lemma CorrelationSinkIs(c: Config, o: Options, enabled: set<Signal>)
    ensures var d := if Traces in enabled then InsertServiceIO(c, o) else c;
      && d.receivers == c.receivers
      && (SERVICE_GRAPH_PIPELINE in d.pipelines <==> SERVICE_GRAPH_PIPELINE in c.pipelines)
      && (SERVICE_GRAPH_PIPELINE in c.pipelines ==>
            d.pipelines[SERVICE_GRAPH_PIPELINE] == c.pipelines[SERVICE_GRAPH_PIPELINE])
      && (if Correlated(o, enabled) then
            CORRELATIONS_PIPELINE in d.pipelines &&
            d.pipelines[CORRELATIONS_PIPELINE] == Pipeline([SERVICE_IO], [], [CORRELATIONS_EXPORTER])
          else d == c)
  {
    assert RootName(Traces)[0] == 't' && SERVICE_GRAPH_PIPELINE[0] == 'm' && CORRELATIONS_PIPELINE[0] == 'm';
    assert |SERVICE_GRAPH_PIPELINE| != |CORRELATIONS_PIPELINE|;
  }

  lemma LastSinksStay(c: Config, o: Options, enabled: set<Signal>)
    ensures var clustered := if Metrics in enabled && On(o.clusterMetrics) then InsertClusterMetrics(c) else c;
      var d := AddConfigExtension(clustered, o);
      && d.pipelines.Keys == c.pipelines.Keys
      && (forall n :: n in {SERVICE_GRAPH_PIPELINE, CORRELATIONS_PIPELINE} && n in c.pipelines ==>
            d.pipelines[n] == c.pipelines[n])
      && (SELF_METRICS in c.receivers ==>
            SELF_METRICS in d.receivers && d.receivers[SELF_METRICS] == c.receivers[SELF_METRICS])
  {
    assert RootName(Metrics)[8] == 'i' && SERVICE_GRAPH_PIPELINE[8] == 's' && CORRELATIONS_PIPELINE[8] == 't';
    assert SELF_METRICS[0] == 'p' && CLUSTER_RECEIVER[0] == 'k';
  }

  /** The extensions of the service, in order; whatever is named is there. */
  lemma ExtensionsAre(c: Config, o: Options, enabled: set<Signal>)
    ensures var d := Finished(c, o, enabled);
      && d.serviceExtensions == c.serviceExtensions +
         (if Clustered(o, enabled) then [LEADER_ELECTOR] else []) +
         (if o.configExtension.Some? then [o.configExtension.value] else [])
      && d.extensions.Keys == c.extensions.Keys +
         (if Clustered(o, enabled) then {LEADER_ELECTOR} else {}) +
         (if o.configExtension.Some? then {o.configExtension.value} else {})
      && d.telemetry == c.telemetry
  {
    var graphed := if Traces in enabled && !On(o.serviceGraphDisabled) then InsertServiceGraph(c, o) else c;
    var correlated := if Traces in enabled then InsertServiceIO(graphed, o) else graphed;
    GraphKeepsExtensions(c, o);
    CorrelationsKeepExtensions(graphed, o);
    LastExtensionsAre(correlated, o, enabled);
  }

  lemma LastExtensionsAre(c: Config, o: Options, enabled: set<Signal>)
    ensures var clustered := if Metrics in enabled && On(o.clusterMetrics) then InsertClusterMetrics(c) else c;
      var d := AddConfigExtension(clustered, o);
      && d.serviceExtensions == c.serviceExtensions +
         (if Clustered(o, enabled) then [LEADER_ELECTOR] else []) +
         (if o.configExtension.Some? then [o.configExtension.value] else [])
      && d.extensions.Keys == c.extensions.Keys +
         (if Clustered(o, enabled) then {LEADER_ELECTOR} else {}) +
         (if o.configExtension.Some? then {o.configExtension.value} else {})
      && d.telemetry == c.telemetry
  {
    assert c.serviceExtensions + [] == c.serviceExtensions;
  }

  /** The extensions, and the telemetry of the service. */
  predicate SameService(c: Config, d: Config) {
    d.serviceExtensions == c.serviceExtensions && d.extensions == c.extensions && d.telemetry == c.telemetry
  }

  lemma GraphKeepsExtensions(c: Config, o: Options)
    ensures SameService(c, InsertServiceGraph(c, o))
  {
  }

  lemma CorrelationsKeepExtensions(c: Config, o: Options)
    ensures SameService(c, InsertServiceIO(c, o))
  {
  }

  // ---------- what the callback of the cluster gateway does ----------

  function Renamed(processors: seq<Name>): seq<Name> {
    if processors != [] && processors[0] == VERSION then [VERSION, OBI_RENAME] + processors[1..]
    else [OBI_RENAME] + processors
  }

  lemma RenamedIs(processors: seq<Name>)
    ensures InsertEarly(processors, OBI_RENAME) == Renamed(processors)
  {
  }

  /**
   Of the pipelines there are, it renames metrics in the metrics root, counts the traffic last in those of
   the destinations, and taps the traces root for insights; nothing else about them is new.
   */
  lemma ExtendedPipelineIs(c: Config, o: CallbackOptions, dests: seq<Name>, n: Name)
    requires n in c.pipelines && !OwnName(n)
    ensures n in Extended(c, o, dests).pipelines
    ensures var p, q := c.pipelines[n], Extended(c, o, dests).pipelines[n];
      && q.receivers == p.receivers
      && q.processors ==
         (if n == RootName(Metrics) then Renamed(p.processors) else p.processors)
         + (if n in dests then [TRAFFIC_METRICS] else [])
      && q.exporters == p.exporters + (if o.insights && n == RootName(Traces) then [TAP_EXPORTER] else [])
  {
    var p := c.pipelines[n];
    assert p.processors + [] == p.processors && p.exporters + [] == p.exporters;
    RenamedIs(p.processors);
    RootNamesDiffer(Metrics, Traces);
    OtelcolStays(RenameMetrics(c), dests, n);
    LaterStagesStay(AddSelfTelemetry(RenameMetrics(c), dests), o, dests, n);
  }

  lemma OtelcolStays(c: Config, dests: seq<Name>, n: Name)
    requires n in c.pipelines && !OwnName(n)
    ensures n in AddSelfTelemetry(c, dests).pipelines
    ensures AddSelfTelemetry(c, dests).pipelines[n] == c.pipelines[n].(processors := c.pipelines[n].processors +
              if n in dests then [TRAFFIC_METRICS] else [])
  {
    assert c.pipelines[n].processors + [] == c.pipelines[n].processors;
  }

  lemma LaterStagesStay(c: Config, o: CallbackOptions, dests: seq<Name>, n: Name)
    requires n in c.pipelines && !OwnName(n)
    ensures var d := OwnMetricsOrNot(TapOrNot(AddTier(c, o), o), o, dests);
      n in d.pipelines &&
      d.pipelines[n] == c.pipelines[n].(exporters := c.pipelines[n].exporters +
        if o.insights && n == RootName(Traces) then [TAP_EXPORTER] else [])
  {
    assert c.pipelines[n].exporters + [] == c.pipelines[n].exporters;
  }

  lemma OwnNamesDiffer()
    ensures OTELCOL_PIPELINE != PROFILES_PIPELINE && OTELCOL_PIPELINE != OWN_METRICS_PIPELINE
    ensures PROFILES_PIPELINE != OWN_METRICS_PIPELINE
    ensures forall n :: OwnName(n) ==> n != RootName(Traces) && n != RootName(Metrics)
  {
    assert |OTELCOL_PIPELINE| == 15 && |PROFILES_PIPELINE| == 8 && |OWN_METRICS_PIPELINE| == 19;
    assert |RootName(Traces)| == 9 && |RootName(Metrics)| == 10;
  }

  /** Its own telemetry has a pipeline, and profiles have one in the enterprise tier if they are on. */
  lemma OwnPipelinesAre(c: Config, o: CallbackOptions, dests: seq<Name>)
    requires forall n :: n in c.pipelines ==> !OwnName(n)
    ensures var d := Extended(c, o, dests);
      && OTELCOL_PIPELINE in d.pipelines
      && d.pipelines[OTELCOL_PIPELINE] == Pipeline([SELF_METRICS], [POD_NAME, COLLECTOR_ROLE], [UI_EXPORTER])
      && (PROFILES_PIPELINE in d.pipelines <==> o.enterprise && o.profiling)
      && (PROFILES_PIPELINE in d.pipelines ==>
            d.pipelines[PROFILES_PIPELINE] == Pipeline([OTLP], [], [PROFILES_EXPORTER]))
  {
    OwnNamesDiffer();
    assert OwnName(PROFILES_PIPELINE);
    assert PROFILES_PIPELINE !in AddSelfTelemetry(RenameMetrics(c), dests).pipelines;
  }

  /** The enterprise tier authorizes, with one extension. */
  lemma AuthIff(c: Config, o: CallbackOptions, dests: seq<Name>)
    ensures var d := Extended(c, o, dests);
      d.serviceExtensions ==
        c.serviceExtensions + if o.enterprise && AUTH_EXTENSION !in c.serviceExtensions then [AUTH_EXTENSION] else []
  {
    assert c.serviceExtensions + [] == c.serviceExtensions;
  }

  /** A metrics pipeline of a destination exports to it. */
  ghost predicate MetricsGoTo(c: Config, dests: seq<Name>, e: Name) {
    exists n :: n in dests && n in c.pipelines && SignalPrefix(Metrics) <= n && e in c.pipelines[n].exporters
  }

  lemma {:induction false} MetricsExportersAre(c: Config, dests: seq<Name>, e: Name)
    ensures e in MetricsExporters(c, dests) <==> MetricsGoTo(c, dests, e)
  {
    if dests != [] {
      var front, last := dests[..|dests| - 1], dests[|dests| - 1];
      assert dests == front + [last];
      MetricsExportersAre(c, front, e);
      assert last in dests && forall n :: n in dests <==> n in front || n == last;
    }
  }

  /** The metrics of the components go to the store, and to what metrics destinations export to, as asked. */
  lemma OwnMetricsGo(c: Config, o: CallbackOptions, dests: seq<Name>, e: Name)
    requires OWN_METRICS_PIPELINE !in c.pipelines
    ensures var d := OwnMetricsOrNot(c, o, dests);
      && (OWN_METRICS_PIPELINE in d.pipelines ==>
            (e in d.pipelines[OWN_METRICS_PIPELINE].exporters <==>
              (o.toStore && e == STORE_EXPORTER) || (o.toDestinations && MetricsGoTo(c, dests, e))))
      && ((o.toStore && e == STORE_EXPORTER) || (o.toDestinations && MetricsGoTo(c, dests, e)) ==>
            OWN_METRICS_PIPELINE in d.pipelines)
  {
    MetricsExportersAre(c, dests, e);
  }

  /** There is no such pipeline that exports nowhere. */
  lemma OwnMetricsGoSomewhere(c: Config, o: CallbackOptions, dests: seq<Name>)
    requires OWN_METRICS_PIPELINE !in c.pipelines
    ensures var d := OwnMetricsOrNot(c, o, dests);
      OWN_METRICS_PIPELINE in d.pipelines ==> d.pipelines[OWN_METRICS_PIPELINE].exporters != []
  {
  }

  // ---------- what the gateway is compiled to ----------

  /** Whatever the callback, a root of a wanted signal runs its resources in order, after the version. */
  lemma CompiledRootRuns(i: Inputs, s: Signal)
    requires Relied(i) && Compile(i).config.Ok? && s != Traces && Wanted(i, s)
    ensures var c := Compile(i).config.value;
      RootName(s) in c.pipelines && Kept([VERSION] + KeysFor(i, s), c.pipelines[RootName(s)].processors)
  {
    RootIs(i, s);
    CompiledFromRooted(i);
    RootNamesAllDiffer();
    assert Extends(RootName(s), Rooted(i).pipelines[RootName(s)], Compile(i).config.value.pipelines[RootName(s)]);
  }

  /** Without a callback nothing else runs there. */
  lemma PlainRootIs(i: Inputs, s: Signal)
    requires Relied(i) && i.selfTelemetry.None? && s != Traces && Wanted(i, s)
    ensures var c := Compile(i).config.value;
      RootName(s) in c.pipelines && c.pipelines[RootName(s)].processors == [VERSION] + KeysFor(i, s)
  {
    RootIs(i, s);
    RootNameIsNoSink(s);
    FinishedPipelineIs(Rooted(i), i.options, Enabled(WiringOf(i), i.options), RootName(s));
  }

  lemma RootNameIsNoSink(s: Signal)
    ensures RootName(s) !in {SERVICE_GRAPH_PIPELINE, CORRELATIONS_PIPELINE, EXPORTING} && !OwnName(RootName(s))
    ensures IsRoot(RootName(s))
  {
    RootNamesAllDiffer();
    RootNamesDiffer(s, s);
    OwnNamesAreOdd();
    assert SERVICE_GRAPH_PIPELINE[8] == 's' && CORRELATIONS_PIPELINE[8] == 't' && RootName(Metrics)[8] == 'i';
  }

  lemma ExtendedAdds(c: Config, o: CallbackOptions, dests: seq<Name>)
    ensures var d := Extended(c, o, dests);
      && (forall n :: !OwnName(n) ==> (n in d.pipelines <==> n in c.pipelines))
      && SELF_METRICS in d.receivers && d.receivers[SELF_METRICS] == Scraping(["otelcol"])
  {
    var first := AddSelfTelemetry(RenameMetrics(c), dests);
    TelemetryAdds(c, dests);
    TierAdds(first, o);
    OwnMetricsAdd(TapOrNot(AddTier(first, o), o), o, dests);
  }

  lemma TelemetryAdds(c: Config, dests: seq<Name>)
    ensures var d := AddSelfTelemetry(RenameMetrics(c), dests);
      && d.pipelines.Keys == c.pipelines.Keys + {OTELCOL_PIPELINE}
      && SELF_METRICS in d.receivers && d.receivers[SELF_METRICS] == Scraping(["otelcol"])
  {
    assert RenameMetrics(c).pipelines.Keys == c.pipelines.Keys;
    assert Counted(RenameMetrics(c).pipelines, dests).Keys == c.pipelines.Keys;
  }

  lemma TierAdds(c: Config, o: CallbackOptions)
    ensures var d := TapOrNot(AddTier(c, o), o);
      d.receivers == c.receivers && (forall n :: n != PROFILES_PIPELINE ==> (n in d.pipelines <==> n in c.pipelines))
  {
  }

  lemma OwnMetricsAdd(c: Config, o: CallbackOptions, dests: seq<Name>)
    ensures var d := OwnMetricsOrNot(c, o, dests);
      && (forall n :: n != OWN_METRICS_PIPELINE ==> (n in d.pipelines <==> n in c.pipelines))
      && (SELF_METRICS in c.receivers ==>
            SELF_METRICS in d.receivers && d.receivers[SELF_METRICS] == c.receivers[SELF_METRICS])
  {
    assert SELF_METRICS[11] == 's' && GATEWAY_SCRAPER[11] == 'g' && OWN_METRICS_RECEIVER[0] == 'o';
  }

  /** Both together: what becomes of a pipeline between the roots and the end. */
  lemma ExtendedThenFinished(
      c: Config, o: CallbackOptions, dests: seq<Name>, w: Options, enabled: set<Signal>, n: Name)
    requires n in c.pipelines && !OwnName(n) && n !in {SERVICE_GRAPH_PIPELINE, CORRELATIONS_PIPELINE}
    ensures n in Finished(Extended(c, o, dests), w, enabled).pipelines
    ensures var p, q := c.pipelines[n], Finished(Extended(c, o, dests), w, enabled).pipelines[n];
      && q.receivers ==
         p.receivers + (if Clustered(w, enabled) && n == RootName(Metrics) then [CLUSTER_RECEIVER] else [])
      && q.processors == (if n == RootName(Metrics) then Renamed(p.processors) else p.processors) +
         (if n in dests then [TRAFFIC_METRICS] else [])
      && q.exporters == p.exporters +
         (if o.insights && n == RootName(Traces) then [TAP_EXPORTER] else []) +
         (if Traces in enabled && w.serviceGraphDisabled != Some(true) && n == GraphTap(c)
          then [SERVICE_GRAPH] else []) +
         (if Correlated(w, enabled) && n == RootName(Traces) && SERVICE_IO !in p.exporters then [SERVICE_IO] else [])
  {
    var d := Extended(c, o, dests);
    ExtendedPipelineIs(c, o, dests, n);
    ExtendedAdds(c, o, dests);
    FinishedPipelineIs(d, w, enabled, n);
    assert GraphTap(d) == GraphTap(c) by {
      OwnNamesAreOdd();
    }
    assert Graphed(d, w, enabled) <==> Traces in enabled && w.serviceGraphDisabled != Some(true);
    assert SERVICE_IO in d.pipelines[n].exporters <==> SERVICE_IO in c.pipelines[n].exporters by {
      assert TAP_EXPORTER[0] == 'o' && SERVICE_IO[0] == 's';
    }
  }

  /** What becomes of a pipeline that is there before the callback of the cluster gateway. */
  lemma GatewayPipelineIs(i: Inputs, o: CallbackOptions, n: Name)
    requires Relied(i) && i.selfTelemetry == Some(Callback(o)) && n in Rooted(i).pipelines && !OwnName(n)
    ensures Compile(i).config.Ok? && n in Compile(i).config.value.pipelines
    ensures var p, q, w := Rooted(i).pipelines[n], Compile(i).config.value.pipelines[n], i.options;
      var traces, metrics := Wanted(i, Traces) || w.insights == Some(true), Wanted(i, Metrics);
      && q.receivers == p.receivers +
         (if metrics && w.clusterMetrics == Some(true) && n == RootName(Metrics) then [CLUSTER_RECEIVER] else [])
      && q.processors == (if n == RootName(Metrics) then Renamed(p.processors) else p.processors) +
         (if n in RoutePipelines(WiringOf(i).routes) then [TRAFFIC_METRICS] else [])
      && q.exporters == p.exporters +
         (if o.insights && n == RootName(Traces) then [TAP_EXPORTER] else []) +
         (if traces && w.serviceGraphDisabled != Some(true) && n == GraphTap(Rooted(i)) then [SERVICE_GRAPH] else []) +
         (if traces && w.serviceIO == Some(true) && n == RootName(Traces) && SERVICE_IO !in p.exporters
          then [SERVICE_IO] else [])
  {
    CompiledIs(i, o);
    ExtendedThenFinished(
      Rooted(i), o, RoutePipelines(WiringOf(i).routes), i.options, Enabled(WiringOf(i), i.options), n);
  }

  /** A pipeline that is neither a root nor traces/exporting keeps its two ends. */
  lemma OtherBecomes(c: Config, o: CallbackOptions, dests: seq<Name>, w: Options, enabled: set<Signal>, n: Name)
    requires n in c.pipelines && !OwnName(n) && n !in {SERVICE_GRAPH_PIPELINE, CORRELATIONS_PIPELINE}
    requires n != RootName(Traces) && n != RootName(Metrics) && n != EXPORTING
    ensures n in Finished(Extended(c, o, dests), w, enabled).pipelines
    ensures Finished(Extended(c, o, dests), w, enabled).pipelines[n] ==
              c.pipelines[n].(processors := c.pipelines[n].processors + if n in dests then [TRAFFIC_METRICS] else [])
  {
    ExtendedThenFinished(c, o, dests, w, enabled, n);
    var p := c.pipelines[n];
    assert p.receivers + [] == p.receivers && p.exporters + [] + [] + [] == p.exporters;
  }

  lemma RootBecomes(
      c: Config, o: CallbackOptions, dests: seq<Name>, w: Options, enabled: set<Signal>, s: Signal, keys: seq<Name>)
    requires s != Traces && RootName(s) in c.pipelines && RootName(s) !in dests
    requires c.pipelines[RootName(s)] == Pipeline([OTLP], [VERSION] + keys, [Router(s)])
    ensures RootName(s) in Finished(Extended(c, o, dests), w, enabled).pipelines
    ensures Finished(Extended(c, o, dests), w, enabled).pipelines[RootName(s)] ==
              Pipeline(
                [OTLP] + (if s == Metrics && Clustered(w, enabled) then [CLUSTER_RECEIVER] else []),
                (if s == Metrics then [VERSION, OBI_RENAME] else [VERSION]) + keys,
                [Router(s)])
  {
    RootNameIsNoSink(s);
    RootNamesAllDiffer();
    ExtendedThenFinished(c, o, dests, w, enabled, RootName(s));
    RenamedRoot(keys);
    var p := c.pipelines[RootName(s)];
    assert p.exporters + [] + [] + [] == p.exporters;
  }

  lemma CompiledIs(i: Inputs, o: CallbackOptions)
    requires Relied(i) && i.selfTelemetry == Some(Callback(o))
    ensures Compile(i).config ==
              Ok(Finished(Extended(Rooted(i), o, RoutePipelines(WiringOf(i).routes)), i.options,
                Enabled(WiringOf(i), i.options)))
    ensures SERVICE_GRAPH_PIPELINE !in Rooted(i).pipelines && CORRELATIONS_PIPELINE !in Rooted(i).pipelines
    ensures forall s :: s in Enabled(WiringOf(i), i.options) <==>
              Wanted(i, s) || (s == Traces && i.options.insights == Some(true))
  {
    SinksAreNew(i);
    forall s ensures s in Enabled(WiringOf(i), i.options) <==>
        Wanted(i, s) || (s == Traces && i.options.insights == Some(true))
    {
      EnabledAre(i, s);
    }
  }

  lemma OtherPipelineIs(i: Inputs, o: CallbackOptions, n: Name)
    requires Relied(i) && i.selfTelemetry == Some(Callback(o)) && n in Rooted(i).pipelines && !OwnName(n)
    requires !IsRoot(n) && n != EXPORTING
    ensures Compile(i).config.Ok? && n in Compile(i).config.value.pipelines
    ensures Compile(i).config.value.pipelines[n] ==
              Rooted(i).pipelines[n].(processors := Rooted(i).pipelines[n].processors +
                if n in RoutePipelines(WiringOf(i).routes) then [TRAFFIC_METRICS] else [])
  {
    CompiledIs(i, o);
    RootNamesAllDiffer();
    OtherBecomes(Rooted(i), o, RoutePipelines(WiringOf(i).routes), i.options, Enabled(WiringOf(i), i.options), n);
  }

  lemma RoutesAreFree(i: Inputs, n: Name)
    requires Relied(i) && n in RoutePipelines(WiringOf(i).routes)
    ensures FreeName(StreamNames(i.streams), n)
  {
    RoutePipelinesAre(WiringOf(i).routes, n);
    PlanIsDefined(i);
    var r :| r in WiringOf(i).routes && r.pipeline == n;
    assert RouteWired(StreamNames(i.streams), WiringOf(i).config, r);
  }

  lemma NoRouteIntoRoots(i: Inputs, n: Name)
    requires Relied(i) && (IsRoot(n) || n == EXPORTING || n in StreamNames(i.streams))
    ensures n !in RoutePipelines(WiringOf(i).routes)
  {
    if n in RoutePipelines(WiringOf(i).routes) {
      RoutesAreFree(i, n);
    }
  }

  /** The roots of metrics, logs and profiles of the cluster gateway, whole. */
  lemma GatewayRootIs(i: Inputs, o: CallbackOptions, s: Signal)
    requires Relied(i) && i.selfTelemetry == Some(Callback(o)) && s != Traces && Wanted(i, s)
    ensures Compile(i).config.Ok? && RootName(s) in Compile(i).config.value.pipelines
    ensures Compile(i).config.value.pipelines[RootName(s)] ==
              Pipeline(
                [OTLP] + (if s == Metrics && i.options.clusterMetrics == Some(true) then [CLUSTER_RECEIVER] else []),
                (if s == Metrics then [VERSION, OBI_RENAME] else [VERSION]) + KeysFor(i, s),
                [Router(s)])
  {
    CompiledIs(i, o);
    RootIs(i, s);
    RootNameIsNoSink(s);
    NoRouteIntoRoots(i, RootName(s));
    RootBecomes(Rooted(i), o, RoutePipelines(WiringOf(i).routes), i.options, Enabled(WiringOf(i), i.options), s,
      KeysFor(i, s));
  }

  lemma RenamedRoot(keys: seq<Name>)
    ensures Renamed([VERSION] + keys) + [] == [VERSION, OBI_RENAME] + keys
    ensures [VERSION] + keys + [] == [VERSION] + keys
  {
    assert ([VERSION] + keys)[1..] == keys;
  }

  /** The two traces pipelines in the end, if `a` is the root before the callback and `b` traces/exporting. */
  lemma TracesBecome(c: Config, o: CallbackOptions, dests: seq<Name>, w: Options, enabled: set<Signal>, a: Pipeline)
    requires RootName(Traces) in c.pipelines && c.pipelines[RootName(Traces)] == a && SERVICE_IO !in a.exporters
    requires RootName(Traces) !in dests && EXPORTING !in dests && Traces in enabled
    ensures var d, split := Finished(Extended(c, o, dests), w, enabled), EXPORTING in c.pipelines;
      var graph := if w.serviceGraphDisabled != Some(true) then [SERVICE_GRAPH] else [];
      && RootName(Traces) in d.pipelines && (EXPORTING in d.pipelines <==> split)
      && d.pipelines[RootName(Traces)] == a.(exporters := a.exporters +
           (if o.insights then [TAP_EXPORTER] else []) + (if split then [] else graph) +
           (if w.serviceIO == Some(true) then [SERVICE_IO] else []))
      && (split ==>
            d.pipelines[EXPORTING] ==
            c.pipelines[EXPORTING].(exporters := c.pipelines[EXPORTING].exporters + graph))
  {
    RootNameIsNoSink(Traces);
    RootNamesAllDiffer();
    ExportingIsNoSink();
    assert a.processors + [] == a.processors && a.receivers + [] == a.receivers;
    ExtendedThenFinished(c, o, dests, w, enabled, RootName(Traces));
    ExtendedAdds(c, o, dests);
    FinishedPipelineIs(Extended(c, o, dests), w, enabled, EXPORTING);
    if EXPORTING in c.pipelines {
      var b := c.pipelines[EXPORTING];
      assert b.processors + [] == b.processors && b.receivers + [] == b.receivers;
      assert b.exporters + [] == b.exporters;
      ExtendedThenFinished(c, o, dests, w, enabled, EXPORTING);
    }
  }

  lemma ExportingIsNoSink()
    ensures EXPORTING !in {SERVICE_GRAPH_PIPELINE, CORRELATIONS_PIPELINE} && !OwnName(EXPORTING)
  {
    OwnNamesAreOdd();
    assert EXPORTING[0] == 't' && SERVICE_GRAPH_PIPELINE[0] == 'm' && CORRELATIONS_PIPELINE[0] == 'm';
  }

  /**
   The traces pipelines of the cluster gateway, whole. Insights and correlations see what enters, and the
   service graph is computed of what is exported; with no destination everything hangs on the root.
   */
  predicate TracesAre(
      c: Config, o: CallbackOptions, w: Options, wanted: bool, early: seq<Name>, late: seq<Name>)
  {
    var split := Aggregated(w) && wanted;
    var graph := if w.serviceGraphDisabled != Some(true) then [SERVICE_GRAPH] else [];
    && RootName(Traces) in c.pipelines && (EXPORTING in c.pipelines <==> split)
    && c.pipelines[RootName(Traces)] == Pipeline(
         [OTLP],
         if Aggregated(w) then [VERSION, GROUP_BY_TRACE] + StayIn(early) else [VERSION] + early + late + [TRACE_STATE],
         (if split then [POST_GROUP_BY] else if Aggregated(w) then [] else [Router(Traces)]) +
         (if o.insights then [TAP_EXPORTER] else []) + (if split then [] else graph) +
         (if w.serviceIO == Some(true) then [SERVICE_IO] else []))
    && (split ==>
          c.pipelines[EXPORTING] == ExportingIs(w, early, late).(exporters := [Router(Traces)] + graph))
  }

  lemma GatewayTracesAre(i: Inputs, o: CallbackOptions)
    requires Relied(i) && i.selfTelemetry == Some(Callback(o))
    requires Wanted(i, Traces) || i.options.insights == Some(true)
    ensures Compile(i).config.Ok?
    ensures TracesAre(Compile(i).config.value, o, i.options, Wanted(i, Traces), Early(i), Late(i))
  {
    CompiledIs(i, o);
    TracesRootIs(i);
    RootNamesAllDiffer();
    NoRouteIntoRoots(i, RootName(Traces));
    NoRouteIntoRoots(i, EXPORTING);
    TracesWhole(Rooted(i), o, RoutePipelines(WiringOf(i).routes), i.options, Enabled(WiringOf(i), i.options),
      Wanted(i, Traces), Early(i), Late(i));
  }

  lemma TracesWhole(c: Config, o: CallbackOptions, dests: seq<Name>, w: Options, enabled: set<Signal>, wanted: bool,
      early: seq<Name>, late: seq<Name>)
    requires RootName(Traces) !in dests && EXPORTING !in dests && Traces in enabled
    requires RootName(Traces) in c.pipelines && (EXPORTING in c.pipelines <==> Aggregated(w) && wanted)
    requires EXPORTING in c.pipelines ==> c.pipelines[EXPORTING] == ExportingIs(w, early, late)
    requires c.pipelines[RootName(Traces)] ==
         (if !Aggregated(w) then Pipeline([OTLP], [VERSION] + early + late + [TRACE_STATE], [Router(Traces)])
          else Pipeline([OTLP], [VERSION, GROUP_BY_TRACE] + StayIn(early), if wanted then [POST_GROUP_BY] else []))
    ensures TracesAre(Finished(Extended(c, o, dests), w, enabled), o, w, wanted, early, late)
  {
    assert SERVICE_IO[0] == 's' && POST_GROUP_BY[0] == 'f' && Router(Traces)[0] == 'o';
    TracesBecome(c, o, dests, w, enabled, c.pipelines[RootName(Traces)]);
  }

  /**
   A pipeline of a successful configurer, in the cluster gateway: as the configurer left it, and then its
   forward connector, the batcher except for profiles, and the counting of traffic.
   */
  lemma GatewayDestinationIs(i: Inputs, o: CallbackOptions, k: nat, n: Name)
    requires Relied(i) && i.selfTelemetry == Some(Callback(o))
    requires k < |i.dests| && i.dests[k].kind in i.configurers && !OwnName(n)
    requires var answer := AnswerTo(i, k); answer.Configured? && n in answer.pipelines
    ensures Compile(i).config.Ok? && n in Compile(i).config.value.pipelines && n in AnswerTo(i, k).config.pipelines
    ensures var p := AnswerTo(i, k).config.pipelines[n];
      Compile(i).config.value.pipelines[n] == Pipeline(
        p.receivers + [FORWARD + n],
        p.processors + (if SignalPrefix(Profiles) <= n then [] else [BATCH]) + [TRAFFIC_METRICS],
        p.exporters)
  {
    WiredPipelineIs(StreamNames(i.streams), Wiring0(i), i.configurers, i.dests, k, n);
    ConfiguredIsRouted(i, k, n);
    DestinationIsRooted(i, n);
    OtherPipelineIs(i, o, n);
  }

  /** What the configurer of a destination answers. */
  function AnswerTo(i: Inputs, k: nat): Answer
    requires k < |i.dests| && i.dests[k].kind in i.configurers
  {
    i.configurers[i.dests[k].kind](i.dests[k], WireAll(Wiring0(i), i.configurers, i.dests[..k]).config)
  }

  lemma ConfiguredIsRouted(i: Inputs, k: nat, n: Name)
    requires k < |i.dests| && i.dests[k].kind in i.configurers
    requires var answer := AnswerTo(i, k); answer.Configured? && n in answer.pipelines
    ensures n in RoutePipelines(WiringOf(i).routes)
  {
    var r := Route(i.dests[k].id, n);
    assert WiredBy(Wiring0(i), i.configurers, i.dests[..k], i.dests[k], r);
    RoutesAre(Wiring0(i), i.configurers, i.dests, r);
    RoutePipelinesAre(WiringOf(i).routes, n);
  }

  lemma DestinationIsRooted(i: Inputs, n: Name)
    requires Relied(i) && n in WiringOf(i).config.pipelines
    ensures n in Rooted(i).pipelines && Rooted(i).pipelines[n] == WiringOf(i).config.pipelines[n]
    ensures FreeName(StreamNames(i.streams), n)
  {
    DestinationPipelinesAreFree(i, n);
    RootedLookup(i, n);
    if n in Roots(PlanOf(i)) {
      RootsAreRoots(PlanOf(i), n);
    } else if n in OfStreams(WiringOf(i).forwards, i.streams) {
      StreamPipelinesAreNamed(i, n);
    }
  }

  /** The pipeline of a data stream in the cluster gateway: from the router of the signal to its destinations. */
  lemma GatewayStreamIs(i: Inputs, o: CallbackOptions, stream: DataStream, s: Signal)
    requires Relied(i) && i.selfTelemetry == Some(Callback(o)) && DistinctNames(i.streams) && stream in i.streams
    requires StreamPipeline(s, stream) in Rooted(i).pipelines && !OwnName(StreamPipeline(s, stream))
    ensures Compile(i).config.Ok? && StreamPipeline(s, stream) in Compile(i).config.value.pipelines
    ensures Compile(i).config.value.pipelines[StreamPipeline(s, stream)] ==
              Pipeline(
                ["odigosrouterconnector/" + SignalName(s)],
                if s == Profiles then [] else [BATCH],
                Exporters(WiringOf(i).forwards, stream.destinations, s))
  {
    StreamPipelineIsRooted(i, stream, s);
    NoRouteIntoRoots(i, StreamPipeline(s, stream));
    OtherPipelineIs(i, o, StreamPipeline(s, stream));
    PipelineOfIs(WiringOf(i).forwards, stream, s);
  }

  lemma PipelineOfIs(forwards: map<string, seq<Name>>, stream: DataStream, s: Signal)
    ensures var p := PipelineOf(forwards, stream, s);
      p.(processors := p.processors + []) ==
        Pipeline(["odigosrouterconnector/" + SignalName(s)], if s == Profiles then [] else [BATCH],
          Exporters(forwards, stream.destinations, s))
  {
  }

  // ---------- what is reported ----------

  /** Exactly the destinations have a status. */
  lemma DestinationsReported(i: Inputs, id: string)
    ensures id in Compile(i).destinations <==> exists k :: 0 <= k < |i.dests| && i.dests[k].id == id
  {
    StatusesAre(Wiring0(i), i.configurers, i.dests, id);
  }

  /** With unique ids, the status of a destination is what its own configurer answered, or that there is none. */
  lemma DestinationStatusIs(i: Inputs, k: nat)
    requires k < |i.dests| && forall j :: 0 <= j < |i.dests| && j != k ==> i.dests[j].id != i.dests[k].id
    ensures i.dests[k].id in Compile(i).destinations
    ensures var status := Compile(i).destinations[i.dests[k].id];
      && (status == None <==> i.dests[k].kind in i.configurers && AnswerTo(i, k).Configured?)
      && (i.dests[k].kind !in i.configurers ==> status == Some("no configer for " + i.dests[k].kind))
      && (i.dests[k].kind in i.configurers && AnswerTo(i, k).Rejected? ==> status == Some(AnswerTo(i, k).error))
  {
    StatusIs(Wiring0(i), i.configurers, i.dests, k);
  }

  /** An error is reported of exactly the processor resources that cannot be converted, and with unique ids theirs. */
  lemma ProcessorsReported(i: Inputs, id: string)
    ensures id in Compile(i).processors <==>
              exists k :: 0 <= k < |i.processors| && i.processors[k].id == id && i.processors[k].config.Err?
    ensures forall k :: 0 <= k < |i.processors| && i.processors[k].id == id && i.processors[k].config.Err? &&
                (forall j :: 0 <= j < |i.processors| && j != k ==> i.processors[j].id != id)
              ==> id in Compile(i).processors && Compile(i).processors[id] == i.processors[k].config.error
  {
    ErrorsAre(i.processors, id);
    forall k | 0 <= k < |i.processors| && i.processors[k].id == id && i.processors[k].config.Err? &&
                 forall j :: 0 <= j < |i.processors| && j != k ==> i.processors[j].id != id
      ensures id in Compile(i).processors && Compile(i).processors[id] == i.processors[k].config.error
    {
      ErrorOf(i.processors, k);
    }
  }

  /** Signals are advertised in a fixed order. */
  lemma SignalsAreOrdered(i: Inputs)
    ensures Kept(Compile(i).signals, [Traces, Metrics, Logs, Profiles])
  {
    var _ := OrderedEmbeds(PlanOf(i).enabled);
  }

  lemma OrderedEmbeds(enabled: set<Signal>) returns (from: seq<nat>)
    ensures Embeds(from, SignalsInOrder(enabled), [Traces, Metrics, Logs, Profiles])
  {
    from :=
      (if Traces in enabled then [0] else []) + (if Metrics in enabled then [1] else []) +
      (if Logs in enabled then [2] else []) + (if Profiles in enabled then [3] else []);
  }

  /** A usable resource is defined as it says, before any destination is added, unless a later one has its key. */
  lemma ResourceIsDefined(i: Inputs, k: nat)
    requires k < |i.processors| && Usable(i.processors[k])
    requires forall j :: k < j < |i.processors| && Usable(i.processors[j]) ==>
               Key(i.processors[j]) != Key(i.processors[k])
    ensures var c := Wiring0(i).config;
      Key(i.processors[k]) in c.processors && c.processors[Key(i.processors[k])] == i.processors[k].config.value.value
  {
    DefinedAs(i.processors, k);
    OwnProcessorsHaveNoSlash();
    KeysHaveSlash(i.processors[k]);
    ResourcesStay(Sorted(i.processors), i.options, Key(i.processors[k]));
  }

  lemma KeysHaveSlash(p: Processor)
    ensures '/' in Key(p)
  {
    assert Key(p)[|p.kind|] == '/';
  }

  lemma ResourcesStay(crd: CrdProcessorResults, o: Options, key: Name)
    requires key in crd.processors && key != GROUP_BY_TRACE && key != TAIL_SAMPLING
    ensures key in Prepared(crd, o).0.processors && Prepared(crd, o).0.processors[key] == crd.processors[key]
  {
  }
}
