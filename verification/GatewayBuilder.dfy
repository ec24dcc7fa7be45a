/**
 The gateway configuration built in place (`common/pipelinegen/config_builder.go`): each method carries out
 one stage of `GatewayConfig` on the fields of one configuration object.
 */
module GatewayBuilder {
  import opened Wrappers
  import opened CollectorConfig
  import opened CrdProcessors
  import opened TracesSplit
  import opened DestinationWiring
  import opened DataStreamPipelines
  import opened GatewayConfig

  /** Which signals have been seen on destination pipelines. */
  datatype Flags = Flags(traces: bool, metrics: bool, logs: bool, profiles: bool)

  function SignalsOfFlags(f: Flags): set<Signal> {
    (if f.traces then {Traces} else {}) + (if f.metrics then {Metrics} else {}) +
    (if f.logs then {Logs} else {}) + (if f.profiles then {Profiles} else {})
  }

  class Gateway {
    var receivers: Components
    var exporters: Components
    var processors: Components
    var extensions: Components
    var connectors: Components
    var serviceExtensions: seq<Name>
    var pipelines: Pipelines
    var telemetry: Telemetry

    function Abs(): Config
      reads this
    {
      Config(receivers, exporters, processors, extensions, connectors, serviceExtensions, pipelines, telemetry)
    }

    constructor ()
      ensures Abs() == BASIC_CONFIG
    {
      receivers, exporters, connectors, pipelines := map[OTLP := Opaque], map[], map[], map[];
      processors := map[VERSION := Opaque, BATCH := Opaque];
      extensions := map["health_check" := Opaque, "pprof" := Opaque];
      serviceExtensions := ["health_check", "pprof"];
      telemetry := NO_TELEMETRY;
    }

    /** What unknown code has made of the configuration. */
    method Become(c: Config)
      modifies this
      ensures Abs() == c
    {
      receivers, exporters, processors, extensions, connectors :=
        c.receivers, c.exporters, c.processors, c.extensions, c.connectors;
      serviceExtensions, pipelines, telemetry := c.serviceExtensions, c.pipelines, c.telemetry;
    }

    // ---------- processors ----------

    method EnsureGroupByTraceProcessor(tracesProcessors: seq<Name>) returns (traces: seq<Name>)
      modifies this`processors
      ensures (Abs(), traces) == EnsureGroupByTrace(old(Abs()), tracesProcessors)
    {
      if GROUP_BY_TRACE in tracesProcessors {
        return tracesProcessors;
      }
      processors := processors[GROUP_BY_TRACE := Opaque];
      return [GROUP_BY_TRACE] + tracesProcessors;
    }

    method AddProcessors(defined: Components)
      modifies this`processors
      ensures Abs() == WithProcessors(old(Abs()), defined)
    {
      var remaining := defined.Keys;
      while |remaining| != 0
        invariant remaining <= defined.Keys
        invariant processors == old(processors) + map k | k in defined && k !in remaining :: defined[k]
        decreases remaining
      {
        var k :| k in remaining;
        remaining := remaining - {k};
        processors := processors[k := defined[k]];
      }
    }

    method PrepareProcessors(crd: CrdProcessorResults, o: Options) returns (traces: seq<Name>)
      requires Abs() == BASIC_CONFIG
      modifies this`processors
      ensures (Abs(), traces) == Prepared(crd, o)
    {
      AddProcessors(crd.processors);
      traces := crd.tracesProcessors;
      if TraceAggregationNeeded(o) {
        traces := EnsureGroupByTraceProcessor(traces);
      }
      if o.tailSampling == Some(true) && o.configExtension.Some? {
        processors := processors[TAIL_SAMPLING := Opaque];
        traces := [TAIL_SAMPLING] + traces;
      }
    }

    // ---------- destinations ----------

    /** The loop over the pipelines of one destination. */
    method ConnectPipelines(
        ghost w: Wiring, id: string, names: seq<Name>, forwardsBefore: map<string, seq<Name>>, flagsBefore: Flags)
      returns (forwards: map<string, seq<Name>>, flags: Flags)
      requires Abs() == w.config && forwardsBefore == w.forwards && SignalsOfFlags(flagsBefore) == w.signals
      modifies this`connectors, this`pipelines
      ensures Abs() == WireNames(w, id, names).config && forwards == WireNames(w, id, names).forwards
      ensures SignalsOfFlags(flags) == WireNames(w, id, names).signals
    {
      forwards, flags := forwardsBefore, flagsBefore;
      ghost var wired := w;
      for i := 0 to |names|
        invariant wired == WireNames(w, id, names[..i])
        invariant Abs() == wired.config && forwards == wired.forwards && SignalsOfFlags(flags) == wired.signals
      {
        var name := names[i];
        OneMoreName(w, id, names, i);
        RaiseIs(flags, name);
        forwards := forwards[id := ForwardsOf(forwards, id) + [Forward(name)]];
        flags := Raise(flags, name);
        ConnectPipeline(name);
        wired := WireName(wired, id, name);
      }
      assert names[..|names|] == names;
    }

    method ConnectPipeline(name: Name)
      modifies this`connectors, this`pipelines
      ensures connectors == old(connectors)[Forward(name) := Opaque]
      ensures pipelines == old(pipelines)[name := Connected(name, PipelineAt(old(Abs()), name))]
    {
      connectors := connectors[Forward(name) := Opaque];
      var pipeline := if name in pipelines then pipelines[name] else Pipeline([], [], []);
      assert pipeline.processors + [] == pipeline.processors;
      pipeline := pipeline.(receivers := pipeline.receivers + [Forward(name)]);
      if !Carries(name, Profiles) {
        pipeline := pipeline.(processors := pipeline.processors + [BATCH]);
      }
      pipelines := pipelines[name := pipeline];
    }

    /** The loop over the destinations. */
    method AddDestinations(dests: seq<Destination>, configurers: Configurers)
      returns (forwards: map<string, seq<Name>>, unified: seq<Name>, flags: Flags, status: map<string, Option<string>>)
      modifies this
      ensures var w := WireAll(Unwired(old(Abs())), configurers, dests);
        && Abs() == w.config && forwards == w.forwards && unified == RoutePipelines(w.routes)
        && SignalsOfFlags(flags) == w.signals && status == w.status
    {
      forwards, unified, flags, status := map[], [], Flags(false, false, false, false), map[];
      ghost var w := Unwired(Abs());
      for i := 0 to |dests|
        invariant w == WireAll(Unwired(old(Abs())), configurers, dests[..i])
        invariant Abs() == w.config && forwards == w.forwards && unified == RoutePipelines(w.routes)
        invariant SignalsOfFlags(flags) == w.signals && status == w.status
      {
        var dest := dests[i];
        assert dests[..i + 1][..i] == dests[..i];
        ghost var next := WireDest(w, configurers, dest);
        if dest.kind !in configurers {
          status := status[dest.id := Some("no configer for " + dest.kind)];
        } else {
          var answer := configurers[dest.kind](dest, Abs());
          Become(answer.config);
          if answer.Rejected? {
            status := status[dest.id := Some(answer.error)];
          } else {
            RoutesOfWired(w.(config := answer.config), dest.id, answer.pipelines);
            forwards, flags :=
              ConnectPipelines(w.(config := answer.config), dest.id, answer.pipelines, forwards, flags);
            unified := unified + answer.pipelines;
            status := status[dest.id := None];
          }
        }
        w := next;
      }
      assert dests[..|dests|] == dests;
    }

    // ---------- root pipelines ----------

    method ApplyRootPipelineForSignal(s: Signal, signalProcessors: seq<Name>)
      modifies this`connectors, this`pipelines
      ensures connectors == old(connectors)[Router(s) := Opaque]
      ensures pipelines == old(pipelines)[RootName(s) := RootPipeline(signalProcessors, [Router(s)])]
      ensures OneRootAdded(old(pipelines), pipelines, old(connectors), connectors, s)
    {
      OtherRootsStay(old(pipelines), old(connectors), s, RootPipeline(signalProcessors, [Router(s)]));
      connectors := connectors[Router(s) := Opaque];
      pipelines := pipelines[RootName(s) := Pipeline([OTLP], [VERSION] + signalProcessors, [Router(s)])];
    }

    method ApplySplitTracesRootPipelines(plan: Plan)
      requires Traces in plan.enabled && plan.aggregated
      modifies this`connectors, this`pipelines
      ensures connectors == old(connectors) + TracesConnectors(plan)
      ensures pipelines == old(pipelines) + TracesRoots(plan)
    {
      var tracesIn, tracesExporting := SplitTracesProcessorsForPipelines(plan.traces, plan.post);
      if !plan.hasTracesDestination {
        pipelines := pipelines[RootName(Traces) := RootPipeline(tracesIn, [])];
        return;
      }
      connectors := connectors[POST_GROUP_BY := Opaque];
      pipelines := pipelines[RootName(Traces) := RootPipeline(tracesIn, [POST_GROUP_BY])];
      connectors := connectors[Router(Traces) := Opaque];
      pipelines := pipelines[EXPORTING := Pipeline([POST_GROUP_BY], tracesExporting, [Router(Traces)])];
      TwoMore(old(connectors), POST_GROUP_BY, Opaque, Router(Traces), Opaque);
      TwoMore(old(pipelines), RootName(Traces), RootPipeline(tracesIn, [POST_GROUP_BY]), EXPORTING,
        ExportingPipeline(plan));
    }

    method InsertRootPipelines(plan: Plan)
      modifies this`connectors, this`pipelines
      ensures Abs() == InsertRoots(old(Abs()), plan)
    {
      InsertTracesRoots(plan);
      InsertRoot(plan, Metrics);
      InsertRoot(plan, Logs);
      InsertRoot(plan, Profiles);
      FourParts(old(connectors), TracesConnectors(plan), SingleRouter(plan, Metrics), SingleRouter(plan, Logs),
        SingleRouter(plan, Profiles));
      FourParts(old(pipelines), TracesRoots(plan), SingleRoot(plan, Metrics), SingleRoot(plan, Logs),
        SingleRoot(plan, Profiles));
    }

    method InsertTracesRoots(plan: Plan)
      modifies this`connectors, this`pipelines
      ensures connectors == old(connectors) + TracesConnectors(plan)
      ensures pipelines == old(pipelines) + TracesRoots(plan)
    {
      if Traces in plan.enabled {
        if plan.aggregated {
          ApplySplitTracesRootPipelines(plan);
        } else {
          ApplyRootPipelineForSignal(Traces, plan.traces + plan.post);
        }
      }
    }

    method InsertRoot(plan: Plan, s: Signal)
      modifies this`connectors, this`pipelines
      ensures connectors == old(connectors) + SingleRouter(plan, s) && pipelines == old(pipelines) + SingleRoot(plan, s)
    {
      if s in plan.enabled {
        ApplyRootPipelineForSignal(s, ProcessorsFor(plan, s));
      }
    }

    // ---------- service graph, correlations, cluster metrics ----------

    method AppendExporter(name: Name, exporter: Name)
      modifies this`pipelines
      ensures Abs() == AddExporter(old(Abs()), name, exporter)
    {
      if name !in pipelines {
        return;
      }
      var pipeline := pipelines[name];
      pipeline := pipeline.(exporters := pipeline.exporters + [exporter]);
      pipelines := pipelines[name := pipeline];
    }

    method ScrapeServiceGraph() returns (ok: bool)
      modifies this`receivers
      ensures ok == AddServiceGraphScrapeConfig(old(Abs())).Some?
      ensures Abs() == if ok then AddServiceGraphScrapeConfig(old(Abs())).value else old(Abs())
      ensures receivers.Keys == old(receivers).Keys && forall r :: r in receivers && r != SELF_METRICS ==>
          receivers[r] == old(receivers)[r]
      ensures forall r :: r in receivers ==>
                multiset(Jobs(receivers[r])) ==
                multiset(Jobs(old(receivers)[r])) +
                if ok && r == SELF_METRICS then multiset{SERVICE_GRAPH} else multiset{}
    {
      if SELF_METRICS !in receivers || !receivers[SELF_METRICS].Scraping? {
        return false;
      }
      receivers := receivers[SELF_METRICS := Scraping(receivers[SELF_METRICS].jobs + [SERVICE_GRAPH])];
      return true;
    }

    method InsertServiceGraphPipeline(o: Options)
      modifies this
      ensures Abs() == InsertServiceGraph(old(Abs()), o)
    {
      exporters := exporters[SERVICE_GRAPH_EXPORTER := Opaque];
      var ok := ScrapeServiceGraph();
      if !ok {
        return;
      }
      ghost var scraped := Abs();
      connectors := connectors[SERVICE_GRAPH := Opaque];
      var names, sinkProcessors: seq<Name> := [SERVICE_GRAPH_EXPORTER], [];
      assert [SERVICE_GRAPH_EXPORTER] + [] == names;
      if o.insights == Some(true) && o.insightsEndpoint != "" {
        if POD_NAME !in processors {
          processors := processors[POD_NAME := Opaque];
        }
        sinkProcessors := [POD_NAME];
        exporters := exporters[INSIGHTS_EXPORTER := Opaque];
        names := names + [INSIGHTS_EXPORTER];
      }
      pipelines := pipelines[SERVICE_GRAPH_PIPELINE := Pipeline([SERVICE_GRAPH], sinkProcessors, names)];
      assert Abs() == PipeServiceGraph(ConnectServiceGraph(scraped), o);
      AppendExporter(if EXPORTING in pipelines then EXPORTING else RootName(Traces), SERVICE_GRAPH);
    }

    method InsertTraceCorrelationsServiceIOPipeline(o: Options)
      modifies this`connectors, this`exporters, this`pipelines
      ensures Abs() == InsertServiceIO(old(Abs()), o)
    {
      if o.serviceIO != Some(true) {
        return;
      }
      connectors := connectors[SERVICE_IO := Opaque];
      exporters := exporters[CORRELATIONS_EXPORTER := Opaque];
      pipelines := pipelines[CORRELATIONS_PIPELINE := Pipeline([SERVICE_IO], [], [CORRELATIONS_EXPORTER])];
      assert Abs() == PipeServiceIO(old(Abs()));
      var root := RootName(Traces);
      if root !in pipelines {
        return;
      }
      if SERVICE_IO !in pipelines[root].exporters {
        AppendExporter(root, SERVICE_IO);
      }
    }

    method InsertClusterMetricsResources()
      modifies this`extensions, this`serviceExtensions, this`receivers, this`pipelines
      ensures Abs() == InsertClusterMetrics(old(Abs()))
    {
      extensions := extensions[LEADER_ELECTOR := Opaque];
      serviceExtensions := serviceExtensions + [LEADER_ELECTOR];
      receivers := receivers[CLUSTER_RECEIVER := Opaque];
      var root := RootName(Metrics);
      if root !in pipelines {
        return;
      }
      var pipeline := pipelines[root];
      pipeline := pipeline.(receivers := pipeline.receivers + [CLUSTER_RECEIVER]);
      pipelines := pipelines[root := pipeline];
    }

    method AddTraceState(flags: Flags)
      modifies this`processors
      ensures Abs() == WithTraceState(old(Abs()), SignalsOfFlags(flags))
    {
      if flags.traces {
        processors := processors[TRACE_STATE := Opaque];
      }
    }

    method AddStreams(streams: seq<DataStream>, forwards: map<string, seq<Name>>)
      modifies this`pipelines
      ensures Abs() == WithStreams(old(Abs()), forwards, streams)
    {
      var streamPipelines := BuildDataStreamPipelines(streams, forwards);
      pipelines := pipelines + streamPipelines;
    }

    /** Everything up to the root pipelines. */
    method BuildRooted(i: Inputs)
      returns (unified: seq<Name>, flags: Flags, destinations: map<string, Option<string>>, errs: map<string, string>)
      requires Abs() == BASIC_CONFIG
      modifies this
      ensures Abs() == Rooted(i) && unified == RoutePipelines(WiringOf(i).routes)
      ensures SignalsOfFlags(flags) == Enabled(WiringOf(i), i.options)
      ensures destinations == WiringOf(i).status && errs == Sorted(i.processors).errs
    {
      var crd := CrdProcessorToConfig(i.processors);
      errs := crd.errs;
      var traces := PrepareProcessors(crd, i.options);
      var forwards;
      forwards, unified, flags, destinations := AddDestinations(i.dests, i.configurers);
      var hasTracesDestination := flags.traces;
      flags := ForceTraces(flags, i.options);
      var plan := MakePlan(i, crd, traces, flags, hasTracesDestination);
      AddTraceState(flags);
      AddStreams(i.streams, forwards);
      InsertRootPipelines(plan);
    }

    method MakePlan(
        i: Inputs, crd: CrdProcessorResults, traces: seq<Name>, flags: Flags, hasTracesDestination: bool)
      returns (plan: Plan)
      requires crd == Sorted(i.processors) && traces == Prepared(crd, i.options).1
      requires SignalsOfFlags(flags) == Enabled(WiringOf(i), i.options)
      requires hasTracesDestination <==> Traces in WiringOf(i).signals
      ensures plan == PlanOf(i)
    {
      var post := crd.tracesProcessorsPostSpanMetrics + if flags.traces then [TRACE_STATE] else [];
      plan := Plan(
        traces, post, crd.metricsProcessors, crd.logsProcessors, crd.profilesProcessors,
        SignalsOfFlags(flags), hasTracesDestination, TraceAggregationNeeded(i.options));
    }

    method Finish(o: Options, flags: Flags)
      modifies this
      ensures Abs() == Finished(old(Abs()), o, SignalsOfFlags(flags))
    {
      if flags.traces {
        InsertSinks(o);
      }
      if flags.metrics && o.clusterMetrics == Some(true) {
        InsertClusterMetricsResources();
      }
      AddExtension(o);
    }

    /** What is derived from traces. */
    method InsertSinks(o: Options)
      modifies this
      ensures Abs() ==
              InsertServiceIO(if On(o.serviceGraphDisabled) then old(Abs()) else InsertServiceGraph(old(Abs()), o), o)
    {
      if o.serviceGraphDisabled == None || !o.serviceGraphDisabled.value {
        InsertServiceGraphPipeline(o);
      }
      InsertTraceCorrelationsServiceIOPipeline(o);
    }

    method AddExtension(o: Options)
      modifies this`serviceExtensions, this`extensions
      ensures Abs() == AddConfigExtension(old(Abs()), o)
    {
      if o.configExtension.Some? {
        serviceExtensions := serviceExtensions + [o.configExtension.value];
        extensions := extensions[o.configExtension.value := Opaque];
      }
    }
  }

  function Jobs(c: Component): seq<string> {
    if c.Scraping? then c.jobs else []
  }

  /** The root of the signal goes from otlp to the router of the signal; other roots and routers stay. */
  ghost predicate OneRootAdded(
      before: Pipelines, after: Pipelines, connectorsBefore: Components, connectorsAfter: Components, s: Signal) {
    && RootName(s) in after && OTLP in after[RootName(s)].receivers
    && Router(s) in connectorsAfter && (forall t :: Router(t) in after[RootName(s)].exporters <==> t == s)
    && (forall t :: t != s ==> (Router(t) in connectorsAfter <==> Router(t) in connectorsBefore))
    && (forall t :: t != s ==> (RootName(t) in after <==> RootName(t) in before))
    && (forall t :: t != s && RootName(t) in before ==> after[RootName(t)] == before[RootName(t)])
  }

  lemma OtherRootsStay(pipelines: Pipelines, connectors: Components, s: Signal, p: Pipeline)
    requires p.exporters == [Router(s)] && OTLP in p.receivers
    ensures OneRootAdded(pipelines, pipelines[RootName(s) := p], connectors, connectors[Router(s) := Opaque], s)
  {
    forall t ensures (RootName(t) == RootName(s) <==> t == s) && (Router(t) == Router(s) <==> t == s) {
      RootNamesDiffer(t, s);
    }
  }

  function Raise(f: Flags, name: Name): Flags {
    if Carries(name, Traces) then f.(traces := true)
    else if Carries(name, Metrics) then f.(metrics := true)
    else if Carries(name, Logs) then f.(logs := true)
    else if Carries(name, Profiles) then f.(profiles := true)
    else f
  }

  /** Insights taps the traces even when nothing else wants them. */
  function ForceTraces(f: Flags, o: Options): (r: Flags)
    ensures SignalsOfFlags(r) == SignalsOfFlags(f) + if On(o.insights) then {Traces} else {}
  {
    if o.insights == Some(true) then f.(traces := true) else f
  }

  lemma RaiseIs(f: Flags, name: Name)
    ensures SignalsOfFlags(Raise(f, name)) == SignalsOfFlags(f) + SignalsOf(name)
  {
  }

  lemma OneMoreName(w: Wiring, id: string, names: seq<Name>, i: nat)
    requires i < |names|
    ensures WireNames(w, id, names[..i + 1]) == WireName(WireNames(w, id, names[..i]), id, names[i])
  {
    assert names[..i + 1][..i] == names[..i];
  }

  lemma TwoMore<K, V>(m: map<K, V>, a: K, x: V, b: K, y: V)
    ensures m[a := x][b := y] == m + map[a := x, b := y]
  {
  }

  lemma FourParts<K, V>(m: map<K, V>, a: map<K, V>, b: map<K, V>, c: map<K, V>, d: map<K, V>)
    ensures m + a + b + c + d == m + (a + b + c + d)
  {
  }

  lemma {:induction false} RoutesOfWired(w: Wiring, id: string, names: seq<Name>)
    ensures RoutePipelines(WireNames(w, id, names).routes) == RoutePipelines(w.routes) + names
  {
    if names != [] {
      var front, last := names[..|names| - 1], names[|names| - 1];
      RoutesOfWired(w, id, front);
      OneMoreRoute(WireNames(w, id, front).routes, Route(id, last));
      assert names == front + [last];
    }
  }

  lemma OneMoreRoute(routes: seq<Route>, r: Route)
    ensures RoutePipelines(routes + [r]) == RoutePipelines(routes) + [r.pipeline]
  {
  }

  /** The whole calculation, on a configuration object that is discarded when the callback fails. */
  method CalculateGatewayConfig(i: Inputs)
    returns (config: Option<Gateway>, destinations: map<string, Option<string>>, processors: map<string, string>,
      signals: seq<Signal>)
    ensures destinations == Compile(i).destinations && processors == Compile(i).processors &&
        signals == Compile(i).signals
    ensures config.Some? <==> Compile(i).config.Ok?
    ensures config.Some? ==> fresh(config.value) && config.value.Abs() == Compile(i).config.value
  {
    var gateway := new Gateway();
    var unified, flags;
    unified, flags, destinations, processors := gateway.BuildRooted(i);
    if i.selfTelemetry.Some? {
      var applied := i.selfTelemetry.value(gateway.Abs(), unified, ROOT_NAMES);
      assert applied == WithSelfTelemetry(i);
      if applied.Err? {
        return None, destinations, processors, [];
      }
      gateway.Become(applied.value);
    }
    gateway.Finish(i.options, flags);
    return Some(gateway), destinations, processors, SignalsInOrder(SignalsOfFlags(flags));
  }
}
