/**
 The two ends of the connectors the gateway makes, and the pipelines with an end that is empty
 (`common/pipelinegen/config_builder.go`): when data that reaches a connector or a pipeline goes on.
 */
module GatewayEnds {
  import opened Wrappers
  import opened CollectorConfig
  import opened DestinationWiring
  import opened DataStreamPipelines
  import opened GatewayConfig
  import opened GatewaySoundness
  import opened GatewayCallback

  ghost predicate Exported(c: Config, k: Name) {
    exists a :: a in c.pipelines && k in c.pipelines[a].exporters
  }

  ghost predicate Received(c: Config, k: Name) {
    exists b :: b in c.pipelines && k in c.pipelines[b].receivers
  }

  /** Some stream lists a destination that has a pipeline of the signal. */
  ghost predicate Wanted(i: Inputs, s: Signal) {
    exists d, r :: d in i.streams && r in WiringOf(i).routes && r.dest in d.destinations && Carries(r.pipeline, s)
  }

  /** Some stream lists a destination that the pipeline was wired for. */
  ghost predicate Listed(i: Inputs, pipeline: Name) {
    exists d, r :: d in i.streams && r in WiringOf(i).routes && r.dest in d.destinations && r.pipeline == pipeline
  }

  // ---------- routers ----------

  lemma ExtendsNoGateway(n: Name, p: Pipeline, q: Pipeline, k: Name)
    requires Extends(n, p, q) && GatewayConnector(k) && k != SERVICE_IO && k in q.exporters
    ensures k in p.exporters
  {
    SinksAreLevelFour();
  }

  lemma RouterIsNoSink(s: Signal)
    ensures Router(s) != SERVICE_IO && GatewayConnector(Router(s)) && ROUTER <= Router(s) && Router(s) != POST_GROUP_BY
  {
    LevelOfRouter(s);
    assert Router(s)[0] == 'o' && SERVICE_IO[0] == 's';
    RootNamesAllDiffer();
  }

  /** Below the data streams, only roots and traces/exporting export to a router. */
  lemma RouterExporterIsLow(streams: set<Name>, c: Config, a: Name, s: Signal)
    requires Sound(streams, c) && a in c.pipelines && Router(s) in c.pipelines[a].exporters
    ensures IsRoot(a) || a == EXPORTING
  {
    RouterIsNoSink(s);
    LevelOfRouter(s);
    assert Fit(streams, NamesOf(c), a, c.pipelines[a]);
    assert Rank(streams, a) < 2;
  }

  lemma RootRoutes(plan: Plan, n: Name, s: Signal)
    requires n in Roots(plan) && Router(s) in Roots(plan)[n].exporters
    ensures HasRouter(plan, s)
  {
    RootsAre(plan);
    RootNamesAllDiffer();
    RouterIsNoSink(s);
  }

  /** Something exports to the router of a signal exactly when the plan has the router. */
  lemma RouterExported(i: Inputs, s: Signal)
    requires Relied(i) && Compile(i).config.Ok?
    ensures Exported(Compile(i).config.value, Router(s)) <==> HasRouter(PlanOf(i), s)
  {
    CompiledIsGrown(i);
    RouterExportedIn(StreamNames(i.streams), PlanOf(i), Rooted(i), Compile(i).config.value, s);
  }

  lemma RouterExportedIn(streams: set<Name>, plan: Plan, r: Config, c: Config, s: Signal)
    requires GrownFrom(streams, plan, r, c)
    ensures Exported(c, Router(s)) <==> HasRouter(plan, s)
  {
    if a :| a in c.pipelines && Router(s) in c.pipelines[a].exporters {
      ExporterHasRouter(streams, plan, r, c, a, s);
    }
    if HasRouter(plan, s) {
      HandoverSurvives(streams, plan, r, c, s);
    }
  }

  lemma ExporterHasRouter(streams: set<Name>, plan: Plan, r: Config, c: Config, a: Name, s: Signal)
    requires GrownFrom(streams, plan, r, c) && a in c.pipelines && Router(s) in c.pipelines[a].exporters
    ensures HasRouter(plan, s)
  {
    RouterExporterIsLow(streams, c, a, s);
    assert a in r.pipelines && a in Roots(plan);
    RouterIsNoSink(s);
    ExtendsNoGateway(a, r.pipelines[a], c.pipelines[a], Router(s));
    RootRoutes(plan, a, s);
  }

  lemma HandoverSurvives(streams: set<Name>, plan: Plan, r: Config, c: Config, s: Signal)
    requires GrownFrom(streams, plan, r, c) && HasRouter(plan, s)
    ensures Handover(plan, s) in c.pipelines && Router(s) in c.pipelines[Handover(plan, s)].exporters
  {
    HandoverRoutes(plan, s);
    var a := Handover(plan, s);
    HandoverIsRoot(plan, s);
    assert Extends(a, r.pipelines[a], c.pipelines[a]);
    assert Router(s) in r.pipelines[a].exporters;
  }

  lemma HandoverIsRoot(plan: Plan, s: Signal)
    ensures MayTap(Handover(plan, s))
  {
    RootNamesAllDiffer();
  }

  /** A pipeline that receives from a router is that of a stream, for the signal of the router. */
  lemma RouterReceiverIsStream(i: Inputs, b: Name, s: Signal)
    requires Relied(i) && Compile(i).config.Ok? && b in Compile(i).config.value.pipelines
    requires Router(s) in Compile(i).config.value.pipelines[b].receivers
    ensures exists d :: d in i.streams && PipelineOf(WiringOf(i).forwards, d, s).exporters != []
  {
    var c, w := Compile(i).config.value, WiringOf(i);
    CompiledFromRooted(i);
    RouterIsNoSink(s);
    assert Fit(StreamNames(i.streams), NamesOf(c), b, c.pipelines[b]);
    StreamPipelineHasStream(i, b);
    var d, t :| d in i.streams && t in SIGNALS && IsStreamPipeline(w.forwards, d, t, b, Rooted(i).pipelines[b]);
    EndsSurvive(i, b);
    OneRouter(w.forwards, d, t, s);
  }

  lemma OneRouter(forwards: map<string, seq<Name>>, d: DataStream, t: Signal, s: Signal)
    requires Router(s) in PipelineOf(forwards, d, t).receivers
    ensures s == t
  {
    RootNamesDiffer(s, t);
  }

  /** What is left under the name of a stream in the end was built for a stream of that name. */
  lemma StreamPipelineHasStream(i: Inputs, n: Name)
    requires Relied(i) && Compile(i).config.Ok? && n in Compile(i).config.value.pipelines && n in StreamNames(i.streams)
    ensures n in Rooted(i).pipelines && !IsRoot(n) && n != EXPORTING
    ensures exists d, s :: d in i.streams && s in SIGNALS &&
              IsStreamPipeline(WiringOf(i).forwards, d, s, n, Rooted(i).pipelines[n])
  {
    CompiledFromRooted(i);
    RootedLookup(i, n);
    if n in Roots(PlanOf(i)) {
      RootsAreRoots(PlanOf(i), n);
    }
    if n !in OfStreams(WiringOf(i).forwards, i.streams) {
      DestinationPipelinesAreFree(i, n);
    } else {
      EveryPipelineHasAStream(WiringOf(i).forwards, i.streams, n);
    }
  }

  /** Data that reaches the router of a signal goes on exactly if some stream lists a wired destination of it. */
  lemma RouterReceived(i: Inputs, s: Signal)
    requires Relied(i) && Compile(i).config.Ok? && DistinctNames(i.streams)
    ensures Received(Compile(i).config.value, Router(s)) <==> Wanted(i, s)
  {
    var c := Compile(i).config.value;
    if b :| b in c.pipelines && Router(s) in c.pipelines[b].receivers {
      RouterReceiverIsStream(i, b, s);
      var d :| d in i.streams && PipelineOf(WiringOf(i).forwards, d, s).exporters != [];
      WantedByStream(i, d, s);
    }
    if d, r :| d in i.streams && r in WiringOf(i).routes && r.dest in d.destinations && Carries(r.pipeline, s) {
      WantedByStream(i, d, s);
      StreamPipelineSurvives(i, d, s);
      assert Router(s) in PipelineOf(WiringOf(i).forwards, d, s).receivers;
      assert StreamPipeline(s, d) in c.pipelines;
    }
  }

  /** A stream has something of a signal to export to exactly if one of its destinations has. */
  lemma WantedByStream(i: Inputs, d: DataStream, s: Signal)
    requires Relied(i)
    ensures PipelineOf(WiringOf(i).forwards, d, s).exporters != [] <==>
              exists r :: r in WiringOf(i).routes && r.dest in d.destinations && Carries(r.pipeline, s)
  {
    var w := WiringOf(i);
    PlanIsDefined(i);
    if PipelineOf(w.forwards, d, s).exporters != [] {
      ExportsToItsDestinations(w, d, s, PipelineOf(w.forwards, d, s).exporters[0]);
    }
    if r :| r in w.routes && r.dest in d.destinations && Carries(r.pipeline, s) {
      ExportsToItsDestinations(w, d, s, Forward(r.pipeline));
    }
  }

  /**
   The router of a signal has both its ends or neither, unless the signal has a router but no stream
   lists a wired destination of the signal: then, and only then, what reaches the router is lost.
   */
  lemma RouterDangles(i: Inputs, s: Signal)
    requires Relied(i) && Compile(i).config.Ok? && DistinctNames(i.streams)
    ensures var c := Compile(i).config.value;
      (Exported(c, Router(s)) != Received(c, Router(s))) <==> HasRouter(PlanOf(i), s) && !Wanted(i, s)
  {
    RouterExported(i, s);
    RouterReceived(i, s);
    if d, r :| d in i.streams && r in WiringOf(i).routes && r.dest in d.destinations && Carries(r.pipeline, s) {
      WantedByStream(i, d, s);
      StreamsHaveRouters(i, d, s);
    }
  }

  // ---------- forward connectors ----------

  lemma ForwardExporterIsStream(i: Inputs, a: Name, n: Name, s: Signal)
    requires Relied(i) && Compile(i).config.Ok? && a in Compile(i).config.value.pipelines && Carries(n, s)
    requires Forward(n) in Compile(i).config.value.pipelines[a].exporters
    ensures Listed(i, n)
  {
    var c, w := Compile(i).config.value, WiringOf(i);
    CompiledFromRooted(i);
    PlanIsDefined(i);
    StartsWithForward(n);
    assert Forward(n) != POST_GROUP_BY by {
      if Forward(n) == POST_GROUP_BY {
        PostGroupByIsOdd(n);
        NotPostGroupBy(n, s);
      }
    }
    assert Fit(StreamNames(i.streams), NamesOf(c), a, c.pipelines[a]);
    StreamPipelineHasStream(i, a);
    var d, t :| d in i.streams && t in SIGNALS && IsStreamPipeline(w.forwards, d, t, a, Rooted(i).pipelines[a]);
    EndsSurvive(i, a);
    ExportsToItsDestinations(w, d, t, Forward(n));
    var r :| r in w.routes && r.dest in d.destinations && Carries(r.pipeline, t) && Forward(n) == Forward(r.pipeline);
    ForwardIsInjective(n, r.pipeline);
  }

  /**
   The forward connector of a wired pipeline always feeds it; something feeds the connector exactly if
   some stream lists a destination the pipeline was wired for.
   */
  lemma ForwardHasBothEnds(i: Inputs, r: Route)
    requires Relied(i) && Compile(i).config.Ok? && DistinctNames(i.streams) && r in WiringOf(i).routes
    ensures Received(Compile(i).config.value, Forward(r.pipeline))
    ensures Exported(Compile(i).config.value, Forward(r.pipeline)) <==> Listed(i, r.pipeline)
  {
    var c, w := Compile(i).config.value, WiringOf(i);
    PlanIsDefined(i);
    RouteSurvives(i, r);
    assert RouteWired(StreamNames(i.streams), w.config, r);
    var s :| Carries(r.pipeline, s);
    if a :| a in c.pipelines && Forward(r.pipeline) in c.pipelines[a].exporters {
      ForwardExporterIsStream(i, a, r.pipeline, s);
    }
    if d, q :| d in i.streams && q in w.routes && q.dest in d.destinations && q.pipeline == r.pipeline {
      ExportsToItsDestinations(w, d, s, Forward(r.pipeline));
      StreamPipelineSurvives(i, d, s);
      assert Forward(r.pipeline) in c.pipelines[StreamPipeline(s, d)].exporters;
    }
  }

  // ---------- pipelines with an empty end ----------

  lemma RootsReceive(plan: Plan, n: Name)
    requires n in Roots(plan)
    ensures Roots(plan)[n].receivers != []
  {
    RootsAre(plan);
  }

  /** Of all pipelines there are before the callback, only a destination's that was not wired can lack receivers. */
  lemma UnfedIff(i: Inputs, n: Name)
    requires Relied(i) && Compile(i).config.Ok? && n in Rooted(i).pipelines
    ensures n in Compile(i).config.value.pipelines
    ensures Compile(i).config.value.pipelines[n].receivers == [] <==>
              n in WiringOf(i).config.pipelines && WiringOf(i).config.pipelines[n].receivers == []
    ensures Compile(i).config.value.pipelines[n].receivers == [] ==>
              !exists r :: r in WiringOf(i).routes && r.pipeline == n
  {
    var c, w := Compile(i).config.value, WiringOf(i);
    CompiledFromRooted(i);
    RootedLookup(i, n);
    assert Extends(n, Rooted(i).pipelines[n], c.pipelines[n]);
    if n in w.config.pipelines {
      DestinationPipelineSurvives(i, n);
      EmptyAlike(w.config.pipelines[n], c.pipelines[n]);
      ForwardedIffRouted(i, n);
    } else if n in Roots(PlanOf(i)) {
      RootsReceive(PlanOf(i), n);
    } else {
      EveryPipelineHasAStream(w.forwards, i.streams, n);
    }
  }

  lemma EmptyAlike(p: Pipeline, q: Pipeline)
    requires SameEnds(p, q)
    ensures (p.receivers == [] <==> q.receivers == []) && (p.exporters == [] <==> q.exporters == [])
  {
    assert |p.receivers| > 0 ==> p.receivers[0] in q.receivers;
    assert |q.receivers| > 0 ==> q.receivers[0] in p.receivers;
    assert |p.exporters| > 0 ==> p.exporters[0] in q.exporters;
    assert |q.exporters| > 0 ==> q.exporters[0] in p.exporters;
  }

  /** The callback taps the root of traces when insights is on. */
  lemma CallbackTaps(c: Config, o: CallbackOptions, dests: seq<Name>)
    requires o.insights && RootName(Traces) in c.pipelines
    ensures var b := Extended(c, o, dests);
      RootName(Traces) in b.pipelines && TAP_EXPORTER in b.pipelines[RootName(Traces)].exporters
  {
    OwnNamesAreOdd();
    RootNamesDiffer(Traces, Metrics);
  }

  /** With the callback of the cluster gateway, every root has something to export to. */
  lemma RootsExport(i: Inputs, o: CallbackOptions, s: Signal)
    requires Relied(i) && i.selfTelemetry == Some(Callback(o)) && o.insights == On(i.options.insights)
    requires Compile(i).config.Ok? && s in Compile(i).signals
    ensures RootName(s) in Compile(i).config.value.pipelines
    ensures Compile(i).config.value.pipelines[RootName(s)].exporters != []
  {
    AdvertisedSignalsAreReceived(i, s);
    AdvertisedAreEnabled(i, s);
    RootsAre(PlanOf(i));
    CompiledIsGrown(i);
    var root, c := RootName(s), Compile(i).config.value;
    RootedLookup(i, root);
    assert Extends(root, Rooted(i).pipelines[root], c.pipelines[root]);
    if Rooted(i).pipelines[root].exporters == [] {
      assert s == Traces && !PlanOf(i).hasTracesDestination;
      EnabledAre(i, s);
      CallbackTaps(Rooted(i), o, RoutePipelines(WiringOf(i).routes));
      TapSurvives(i, o);
    }
  }

  lemma TapSurvives(i: Inputs, o: CallbackOptions)
    requires Relied(i) && i.selfTelemetry == Some(Callback(o)) && Compile(i).config.Ok?
    requires RootName(Traces) in Rooted(i).pipelines
    requires var b := Extended(Rooted(i), o, RoutePipelines(WiringOf(i).routes));
      RootName(Traces) in b.pipelines && TAP_EXPORTER in b.pipelines[RootName(Traces)].exporters
    ensures RootName(Traces) in Compile(i).config.value.pipelines
    ensures TAP_EXPORTER in Compile(i).config.value.pipelines[RootName(Traces)].exporters
  {
    CompiledIsLater(i);
  }
}
