/**
 What the cluster gateway adds to its configuration once the root pipelines are there
 (`autoscaler/controllers/clustercollector`): the callback that configmap.go hands to the pipeline
 compiler. It is shown to honour the contract the theorems about compiled configurations rely on.
 */
module GatewayCallback {
  import opened Wrappers
  import opened CollectorConfig
  import opened CrdProcessors
  import opened DestinationWiring
  import opened DataStreamPipelines
  import opened GatewayConfig
  import opened GatewaySoundness

  const OBI_RENAME := "transform/odigos-obi-metrics-rename"
  const COLLECTOR_ROLE := "resource/odigos-collector-role"
  const TRAFFIC_METRICS := "odigostrafficmetrics"
  const UI_EXPORTER := "otlp_grpc/odigos-own-telemetry-ui"
  const OTELCOL_PIPELINE := "metrics/otelcol"
  const PROFILES_EXPORTER := "otlp_grpc/profiles-to-ui"
  const PROFILES_PIPELINE := "profiles"
  const AUTH_EXTENSION := "odigos_enterprise_auth"
  const TAP_EXPORTER := "otlp_grpc/insights"
  const OWN_METRICS_RECEIVER := "otlp/odigos-own-metrics-in"
  const GATEWAY_SCRAPER := "prometheus/gateway-own-metrics"
  const STORE_EXPORTER := "otlp_http/odigos-victoriametrics"
  const OWN_METRICS_PIPELINE := "metrics/own-metrics"

  /** `toStore` and `toDestinations` say where the metrics of the components themselves go. */
  datatype CallbackOptions = CallbackOptions(
    enterprise: bool, profiling: bool, insights: bool, toStore: bool, toDestinations: bool)

  /** obimetrics.go: one processor, right after the version if that comes first. */
  function RenameMetrics(c: Config): Config {
    var root := RootName(Metrics);
    if root !in c.pipelines then c
    else
      var p := c.pipelines[root];
      c.(processors := c.processors[OBI_RENAME := Opaque],
         pipelines := c.pipelines[root := p.(processors := InsertEarly(p.processors, OBI_RENAME))])
  }

  function InsertEarly(processors: seq<Name>, x: Name): seq<Name> {
    var at := if processors != [] && processors[0] == VERSION then 1 else 0;
    processors[..at] + [x] + processors[at..]
  }

  /** configmap.go, addSelfTelemetryPipeline. */
  function AddSelfTelemetry(c: Config, dests: seq<Name>): Config {
    c.(receivers := c.receivers[SELF_METRICS := Scraping(["otelcol"])],
       processors := c.processors + map[POD_NAME := Opaque, COLLECTOR_ROLE := Opaque, TRAFFIC_METRICS := Opaque],
       exporters := c.exporters[UI_EXPORTER := Opaque],
       pipelines := Counted(c.pipelines, dests)[
         OTELCOL_PIPELINE := Pipeline([SELF_METRICS], [POD_NAME, COLLECTOR_ROLE], [UI_EXPORTER])],
       telemetry := Telemetry("detailed", [Opaque], "", Some([ResourceAttribute("k8s.pod.name", "${POD_NAME}")])))
  }

  /** The destination pipelines count the traffic last. */
  function Counted(pipelines: Pipelines, dests: seq<Name>): Pipelines {
    map n | n in pipelines ::
      if n in dests then pipelines[n].(processors := pipelines[n].processors + [TRAFFIC_METRICS]) else pipelines[n]
  }

  /** profiling_pipeline.go. */
  function AddProfiling(c: Config): Config {
    c.(exporters := c.exporters[PROFILES_EXPORTER := Opaque],
       pipelines := c.pipelines[PROFILES_PIPELINE := Pipeline([OTLP], [], [PROFILES_EXPORTER])])
  }

  /** enterpriseauth.go. */
  function AddAuth(c: Config): Config {
    c.(extensions := c.extensions[AUTH_EXTENSION := Opaque],
       serviceExtensions :=
         c.serviceExtensions + if AUTH_EXTENSION in c.serviceExtensions then [] else [AUTH_EXTENSION])
  }

  /** insights_exporter.go: the root of traces also exports to insights. */
  function AddTap(c: Config): Config {
    var root := RootName(Traces);
    if root !in c.pipelines then c
    else
      AddExporter(c.(exporters := c.exporters[TAP_EXPORTER := Opaque]), root, TAP_EXPORTER)
  }

  /** The exporters of the metrics pipelines among the destinations, in order. */
  function MetricsExporters(c: Config, dests: seq<Name>): seq<Name> {
    if dests == [] then []
    else
      var last := dests[|dests| - 1];
      MetricsExporters(c, dests[..|dests| - 1]) + if Carries(last, Metrics) then PipelineAt(c, last).exporters else []
  }

  /** ownmetrics.go: no pipeline at all rather than one that exports nowhere. */
  function AddOwnMetrics(c: Config, o: CallbackOptions, dests: seq<Name>): Config {
    var exporters :=
      (if o.toStore then [STORE_EXPORTER] else []) + (if o.toDestinations then MetricsExporters(c, dests) else []);
    var stored :=
      if o.toStore then
        c.(exporters := c.exporters[STORE_EXPORTER := Opaque], receivers := c.receivers[GATEWAY_SCRAPER := Opaque])
      else c;
    if exporters == [] then stored
    else
      stored.(receivers := stored.receivers[OWN_METRICS_RECEIVER := Opaque],
              pipelines := stored.pipelines[OWN_METRICS_PIPELINE :=
                Pipeline([OWN_METRICS_RECEIVER] + (if o.toStore then [GATEWAY_SCRAPER] else []), [], exporters)])
  }

  /** What only the enterprise tier has. */
  function AddTier(c: Config, o: CallbackOptions): Config {
    var profiled := if o.enterprise && o.profiling then AddProfiling(c) else c;
    if o.enterprise then AddAuth(profiled) else profiled
  }

  function TapOrNot(c: Config, o: CallbackOptions): Config {
    if o.insights then AddTap(c) else c
  }

  function OwnMetricsOrNot(c: Config, o: CallbackOptions, dests: seq<Name>): Config {
    if o.toStore || o.toDestinations then AddOwnMetrics(c, o, dests) else c
  }

  /** The whole callback, in the order of its stages. */
  function Extended(c: Config, o: CallbackOptions, dests: seq<Name>): Config {
    OwnMetricsOrNot(TapOrNot(AddTier(AddSelfTelemetry(RenameMetrics(c), dests), o), o), o, dests)
  }

  /** The callback; it never fails here, because every section of the configuration is there. */
  function Callback(o: CallbackOptions): SelfTelemetry {
    (c: Config, dests: seq<Name>, roots: seq<Name>) => Ok(Extended(c, o, dests))
  }

  // ---------- the contract ----------

  predicate OwnEnd(n: Name) {
    n in {SELF_METRICS, UI_EXPORTER, PROFILES_EXPORTER, TAP_EXPORTER, OWN_METRICS_RECEIVER, GATEWAY_SCRAPER,
      STORE_EXPORTER}
  }

  predicate OwnName(n: Name) {
    n in {OTELCOL_PIPELINE, PROFILES_PIPELINE, OWN_METRICS_PIPELINE}
  }

  /** No connector has the name of an end of the callback's own. */
  ghost predicate EndsFree(c: Config) {
    forall k :: k in c.connectors ==> !OwnEnd(k)
  }

  lemma CallbackEndsAreNoConnectors()
    ensures forall n :: OwnEnd(n) ==> !GatewayConnector(n) && n != SERVICE_GRAPH
  {
    assert SELF_METRICS[0] == 'p' && GATEWAY_SCRAPER[0] == 'p' && UI_EXPORTER[0] == 'o' && PROFILES_EXPORTER[0] == 'o';
    assert TAP_EXPORTER[0] == 'o' && OWN_METRICS_RECEIVER[0] == 'o' && STORE_EXPORTER[0] == 'o';
    assert UI_EXPORTER[1] == 't' && PROFILES_EXPORTER[1] == 't' && TAP_EXPORTER[1] == 't';
    assert OWN_METRICS_RECEIVER[1] == 't' && STORE_EXPORTER[1] == 't' && ROUTER[1] == 'd';
    assert FORWARD[0] == 'f' && ROUTER[0] == 'o' && SERVICE_GRAPH[0] == 's' && SERVICE_IO[0] == 's';
  }

  lemma OwnNamesAreOdd()
    ensures forall n :: OwnName(n) ==>
              !IsRoot(n) && n !in {EXPORTING, SERVICE_GRAPH_PIPELINE, CORRELATIONS_PIPELINE}
    ensures TAIL_SAMPLING !in {OBI_RENAME, POD_NAME, COLLECTOR_ROLE, TRAFFIC_METRICS}
  {
  }

  lemma OwnStaysOwn(n: Name, ns: Names, more: Names, p: Pipeline, q: Pipeline)
    requires OwnPipeline(ns, p) && AddsOwn(n, more, p, q) && !MayTap(n)
    requires Within(ns, more) && ns.connectors == more.connectors
    ensures OwnPipeline(more, q)
  {
  }

  lemma AddsOwnTwice(n: Name, ns: Names, more: Names, p: Pipeline, q: Pipeline, r: Pipeline)
    requires AddsOwn(n, ns, p, q) && AddsOwn(n, more, q, r) && Within(ns, more)
    ensures AddsOwn(n, more, p, r)
  {
  }

  lemma BenignTransitive(streams: set<Name>, a: Config, b: Config, c: Config)
    requires Benign(streams, a, b) && Benign(streams, b, c)
    ensures Benign(streams, a, c)
  {
    LaterTransitive(streams, a, b, c);
    forall n | n in a.pipelines ensures AddsOwn(n, NamesOf(c), a.pipelines[n], c.pipelines[n]) {
      AddsOwnTwice(n, NamesOf(b), NamesOf(c), a.pipelines[n], b.pipelines[n], c.pipelines[n]);
    }
    forall n | n in b.pipelines && n !in a.pipelines ensures OwnPipeline(NamesOf(c), c.pipelines[n]) {
      OwnStaysOwn(n, NamesOf(b), NamesOf(c), b.pipelines[n], c.pipelines[n]);
    }
  }

  /** Names and nothing else: ends of the callback's own, processors and extensions. */
  ghost predicate AddsNames(a: Config, b: Config) {
    && Within(NamesOf(a), NamesOf(b)) && a.connectors == b.connectors && ClosedExtensions(b)
    && (forall n :: n in b.receivers && n !in a.receivers ==> OwnEnd(n))
    && (forall n :: n in b.exporters && n !in a.exporters ==> OwnEnd(n))
  }

  lemma AddsNamesApart(a: Config, b: Config)
    requires Apart(NamesOf(a)) && EndsFree(a) && AddsNames(a, b)
    ensures Apart(NamesOf(b))
  {
    CallbackEndsAreNoConnectors();
  }

  /** An edit of pipelines that are there. */
  lemma EditIsBenign(streams: set<Name>, a: Config, b: Config)
    requires Apart(NamesOf(a)) && EndsFree(a) && AddsNames(a, b) && b.pipelines.Keys == a.pipelines.Keys
    requires forall n :: n in a.pipelines ==>
               Extends(n, a.pipelines[n], b.pipelines[n]) && AddsOwn(n, NamesOf(b), a.pipelines[n], b.pipelines[n])
    ensures Benign(streams, a, b)
  {
    AddsNamesApart(a, b);
  }

  lemma EditOneIsBenign(streams: set<Name>, a: Config, b: Config, n: Name)
    requires Apart(NamesOf(a)) && EndsFree(a) && AddsNames(a, b)
    requires n in a.pipelines && n in b.pipelines && b.pipelines == a.pipelines[n := b.pipelines[n]]
    requires Extends(n, a.pipelines[n], b.pipelines[n]) && AddsOwn(n, NamesOf(b), a.pipelines[n], b.pipelines[n])
    ensures Benign(streams, a, b) && b.pipelines.Keys == a.pipelines.Keys
  {
    EditIsBenign(streams, a, b);
  }

  /** A new pipeline of the callback's own. */
  lemma NewIsBenign(streams: set<Name>, a: Config, b: Config, n: Name)
    requires Apart(NamesOf(a)) && EndsFree(a) && AddsNames(a, b) && OwnName(n) && n !in a.pipelines
    requires n in b.pipelines && b.pipelines == a.pipelines[n := b.pipelines[n]]
    requires n !in streams && OwnPipeline(NamesOf(b), b.pipelines[n])
    ensures Benign(streams, a, b)
  {
    OwnNamesAreOdd();
    AddsNamesApart(a, b);
    NewPipelineLater(streams, a, b, n);
  }

  // ---------- the stages honour it ----------

  /** What every stage starts from. */
  ghost predicate Ready(streams: set<Name>, c: Config) {
    Sound(streams, c) && EndsFree(c) && OTLP in c.receivers
  }

  lemma ReadyStays(streams: set<Name>, a: Config, b: Config)
    requires Ready(streams, a) && Benign(streams, a, b) && a.connectors == b.connectors
    ensures Ready(streams, b)
  {
    BenignKeeps(streams, a, b);
  }

  lemma InsertEarlyIs(processors: seq<Name>, x: Name)
    ensures Kept(processors, InsertEarly(processors, x))
    ensures forall y :: y in InsertEarly(processors, x) <==> y == x || y in processors
  {
    var at := if processors != [] && processors[0] == VERSION then 1 else 0;
    KeptAround(processors[..at], [x], processors[at..]);
    assert processors == processors[..at] + processors[at..];
  }

  /** A processor inserted second in the root of metrics. */
  lemma RenameIsBenign(streams: set<Name>, c: Config)
    requires Ready(streams, c)
    ensures Benign(streams, c, RenameMetrics(c)) && RenameMetrics(c).pipelines.Keys == c.pipelines.Keys
  {
    var root := RootName(Metrics);
    if root in c.pipelines {
      RenameExtends(NamesOf(RenameMetrics(c)), c.pipelines[root]);
      EditOneIsBenign(streams, c, RenameMetrics(c), root);
    } else {
      EditIsBenign(streams, c, c);
    }
  }

  lemma RenameExtends(ns: Names, p: Pipeline)
    requires OBI_RENAME in ns.processors
    ensures var q := p.(processors := InsertEarly(p.processors, OBI_RENAME));
      Extends(RootName(Metrics), p, q) && AddsOwn(RootName(Metrics), ns, p, q)
  {
    RootNamesDiffer(Metrics, Traces);
    OwnNamesAreOdd();
    InsertEarlyIs(p.processors, OBI_RENAME);
  }

  /** An exporter appended to the root of traces. */
  lemma TapIsBenign(streams: set<Name>, c: Config)
    requires Ready(streams, c)
    ensures Benign(streams, c, AddTap(c)) && AddTap(c).pipelines.Keys == c.pipelines.Keys
  {
    var root := RootName(Traces);
    if root in c.pipelines {
      TapExtends(NamesOf(AddTap(c)), c.pipelines[root]);
      EditOneIsBenign(streams, c, AddTap(c), root);
    } else {
      EditIsBenign(streams, c, c);
    }
  }

  lemma TapExtends(ns: Names, p: Pipeline)
    requires TAP_EXPORTER in ns.exporters
    ensures var q := p.(exporters := p.exporters + [TAP_EXPORTER]);
      Extends(RootName(Traces), p, q) && AddsOwn(RootName(Traces), ns, p, q)
  {
    CallbackEndsAreNoConnectors();
    assert OwnEnd(TAP_EXPORTER);
  }

  /** A pipeline that receives from otlp. */
  lemma ProfilingIsBenign(streams: set<Name>, c: Config)
    requires Ready(streams, c) && PROFILES_PIPELINE !in c.pipelines && PROFILES_PIPELINE !in streams
    ensures Benign(streams, c, AddProfiling(c))
  {
    NewIsBenign(streams, c, AddProfiling(c), PROFILES_PIPELINE);
  }

  lemma AuthIsBenign(streams: set<Name>, c: Config)
    requires Ready(streams, c)
    ensures Benign(streams, c, AddAuth(c))
  {
    EditIsBenign(streams, c, AddAuth(c));
  }

  /** The own telemetry without its pipeline: processors at the end of the destination pipelines. */
  function CountTraffic(c: Config, dests: seq<Name>): Config {
    AddSelfTelemetry(c, dests).(pipelines := Counted(c.pipelines, dests))
  }

  lemma OneMoreProcessor(n: Name, ns: Names, p: Pipeline, x: Name)
    requires x in ns.processors && x != TAIL_SAMPLING
    ensures var q := p.(processors := p.processors + [x]); Extends(n, p, q) && AddsOwn(n, ns, p, q)
    ensures Extends(n, p, p) && AddsOwn(n, ns, p, p)
  {
  }

  lemma CountTrafficIsBenign(streams: set<Name>, c: Config, dests: seq<Name>)
    requires Ready(streams, c)
    ensures Benign(streams, c, CountTraffic(c, dests)) && CountTraffic(c, dests).pipelines.Keys == c.pipelines.Keys
  {
    CountTrafficAddsNames(streams, c, dests);
    forall n | n in c.pipelines
      ensures Extends(n, c.pipelines[n], Counted(c.pipelines, dests)[n])
      ensures AddsOwn(n, NamesOf(CountTraffic(c, dests)), c.pipelines[n], Counted(c.pipelines, dests)[n])
    {
      OneMoreProcessor(n, NamesOf(CountTraffic(c, dests)), c.pipelines[n], TRAFFIC_METRICS);
    }
    EditIsBenign(streams, c, CountTraffic(c, dests));
  }

  lemma CountTrafficAddsNames(streams: set<Name>, c: Config, dests: seq<Name>)
    requires Ready(streams, c)
    ensures AddsNames(c, CountTraffic(c, dests)) && CountTraffic(c, dests).pipelines == Counted(c.pipelines, dests)
    ensures TRAFFIC_METRICS in CountTraffic(c, dests).processors && TRAFFIC_METRICS != TAIL_SAMPLING
  {
    OwnNamesAreOdd();
  }

  lemma SelfTelemetryIsBenign(streams: set<Name>, c: Config, dests: seq<Name>)
    requires Ready(streams, c) && OTELCOL_PIPELINE !in c.pipelines && OTELCOL_PIPELINE !in streams
    ensures Benign(streams, c, AddSelfTelemetry(c, dests))
  {
    var counted := CountTraffic(c, dests);
    CountTrafficIsBenign(streams, c, dests);
    ReadyStays(streams, c, counted);
    OtelcolIsOwn(streams, c, dests);
    NewIsBenign(streams, counted, AddSelfTelemetry(c, dests), OTELCOL_PIPELINE);
    BenignTransitive(streams, c, counted, AddSelfTelemetry(c, dests));
  }

  lemma OtelcolIsOwn(streams: set<Name>, c: Config, dests: seq<Name>)
    requires Ready(streams, c)
    ensures var a, b := CountTraffic(c, dests), AddSelfTelemetry(c, dests);
      && AddsNames(a, b) && b.pipelines == a.pipelines[OTELCOL_PIPELINE := b.pipelines[OTELCOL_PIPELINE]]
      && OwnPipeline(NamesOf(b), b.pipelines[OTELCOL_PIPELINE])
  {
    OwnNamesAreOdd();
    assert OwnEnd(SELF_METRICS) && OwnEnd(UI_EXPORTER);
  }

  /** A metrics pipeline of a destination exports to no connector. */
  lemma {:induction false} MetricsExportersAreEnds(streams: set<Name>, c: Config, dests: seq<Name>, e: Name)
    requires Sound(streams, c) && (forall n :: n in dests ==> FreeName(streams, n))
    requires e in MetricsExporters(c, dests)
    ensures e in c.exporters && e !in c.connectors
  {
    var front, last := dests[..|dests| - 1], dests[|dests| - 1];
    assert dests == front + [last];
    if e in MetricsExporters(c, front) {
      MetricsExportersAreEnds(streams, c, front, e);
    } else {
      assert last in dests && last in c.pipelines && Fit(streams, NamesOf(c), last, c.pipelines[last]);
      SignalsOfIs(last, Metrics);
      SignalsOfIs(last, Traces);
      RankOfFree(streams, last);
      assert Rank(streams, last) == 4 >= Level(e);
    }
  }

  lemma OwnMetricsIsBenign(streams: set<Name>, c: Config, o: CallbackOptions, dests: seq<Name>)
    requires Ready(streams, c) && OWN_METRICS_PIPELINE !in c.pipelines && OWN_METRICS_PIPELINE !in streams
    requires forall n :: n in dests ==> FreeName(streams, n)
    ensures Benign(streams, c, AddOwnMetrics(c, o, dests))
  {
    var b := AddOwnMetrics(c, o, dests);
    if b.pipelines == c.pipelines {
      EditIsBenign(streams, c, b);
    } else {
      OwnMetricsAreOwn(streams, c, o, dests);
      NewIsBenign(streams, c, b, OWN_METRICS_PIPELINE);
    }
  }

  lemma OwnMetricsAreOwn(streams: set<Name>, c: Config, o: CallbackOptions, dests: seq<Name>)
    requires Ready(streams, c) && forall n :: n in dests ==> FreeName(streams, n)
    requires OWN_METRICS_PIPELINE !in c.pipelines && OWN_METRICS_PIPELINE in AddOwnMetrics(c, o, dests).pipelines
    ensures var b := AddOwnMetrics(c, o, dests); OwnPipeline(NamesOf(b), b.pipelines[OWN_METRICS_PIPELINE])
  {
    var b := AddOwnMetrics(c, o, dests);
    assert OwnEnd(STORE_EXPORTER) && OwnEnd(OWN_METRICS_RECEIVER) && OwnEnd(GATEWAY_SCRAPER);
    forall e | e in MetricsExporters(c, dests) ensures e in b.exporters && e !in b.connectors {
      MetricsExportersAreEnds(streams, c, dests, e);
    }
  }

  /** No stream and no pipeline there is has a name of the callback's own. */
  ghost predicate NamesFree(streams: set<Name>, c: Config) {
    forall n :: n in c.pipelines || n in streams ==> !OwnName(n)
  }

  lemma Chain(streams: set<Name>, a: Config, b: Config, c: Config)
    requires Ready(streams, b) && Benign(streams, a, b) && Benign(streams, b, c) && b.connectors == c.connectors
    ensures Benign(streams, a, c) && Ready(streams, c)
  {
    BenignTransitive(streams, a, b, c);
    ReadyStays(streams, b, c);
  }

  /** Two stages after one another. */
  lemma BaseIsBenign(streams: set<Name>, c: Config, renamed: Config, dests: seq<Name>)
    requires Ready(streams, c) && Benign(streams, c, renamed) && c.connectors == renamed.connectors
    requires renamed.pipelines.Keys == c.pipelines.Keys && NamesFree(streams, c)
    ensures var b := AddSelfTelemetry(renamed, dests);
      Benign(streams, c, b) && Ready(streams, b) && b.pipelines.Keys == c.pipelines.Keys + {OTELCOL_PIPELINE}
  {
    assert OwnName(OTELCOL_PIPELINE);
    ReadyStays(streams, c, renamed);
    SelfTelemetryIsBenign(streams, renamed, dests);
    Chain(streams, c, renamed, AddSelfTelemetry(renamed, dests));
  }

  lemma TierIsBenign(streams: set<Name>, a: Config, c: Config, o: CallbackOptions)
    requires Ready(streams, c) && Benign(streams, a, c)
    requires PROFILES_PIPELINE !in c.pipelines && PROFILES_PIPELINE !in streams
    ensures var b := AddTier(c, o);
      Benign(streams, a, b) && Ready(streams, b) && b.pipelines.Keys <= c.pipelines.Keys + {PROFILES_PIPELINE}
  {
    var profiled := if o.enterprise && o.profiling then AddProfiling(c) else c;
    if o.enterprise && o.profiling {
      ProfilingIsBenign(streams, c);
      Chain(streams, a, c, profiled);
    }
    if o.enterprise {
      AuthIsBenign(streams, profiled);
      Chain(streams, a, profiled, AddAuth(profiled));
    }
  }

  lemma TapOrNotIsBenign(streams: set<Name>, a: Config, c: Config, o: CallbackOptions)
    requires Ready(streams, c) && Benign(streams, a, c)
    ensures var b := TapOrNot(c, o);
      Benign(streams, a, b) && Ready(streams, b) && b.pipelines.Keys == c.pipelines.Keys
  {
    if o.insights {
      TapIsBenign(streams, c);
      Chain(streams, a, c, AddTap(c));
    }
  }

  lemma OwnMetricsOrNotIsBenign(streams: set<Name>, a: Config, c: Config, o: CallbackOptions, dests: seq<Name>)
    requires Ready(streams, c) && Benign(streams, a, c) && (forall n :: n in dests ==> FreeName(streams, n))
    requires OWN_METRICS_PIPELINE !in c.pipelines && OWN_METRICS_PIPELINE !in streams
    ensures Benign(streams, a, OwnMetricsOrNot(c, o, dests))
  {
    if o.toStore || o.toDestinations {
      OwnMetricsIsBenign(streams, c, o, dests);
      Chain(streams, a, c, AddOwnMetrics(c, o, dests));
    }
  }

  /** The stages after the own telemetry. */
  lemma RestIsBenign(streams: set<Name>, a: Config, c: Config, o: CallbackOptions, dests: seq<Name>)
    requires Ready(streams, c) && Benign(streams, a, c) && (forall n :: n in dests ==> FreeName(streams, n))
    requires NamesFree(streams, a) && c.pipelines.Keys == a.pipelines.Keys + {OTELCOL_PIPELINE}
    ensures Benign(streams, a, OwnMetricsOrNot(TapOrNot(AddTier(c, o), o), o, dests))
  {
    assert |OTELCOL_PIPELINE| == 15 && |PROFILES_PIPELINE| == 8 && |OWN_METRICS_PIPELINE| == 19;
    assert OwnName(PROFILES_PIPELINE) && OwnName(OWN_METRICS_PIPELINE);
    TierIsBenign(streams, a, c, o);
    TapOrNotIsBenign(streams, a, AddTier(c, o), o);
    OwnMetricsOrNotIsBenign(streams, a, TapOrNot(AddTier(c, o), o), o, dests);
  }

  /** The whole callback honours its contract. */
  lemma CallbackIsBenign(streams: set<Name>, c: Config, o: CallbackOptions, dests: seq<Name>)
    requires Ready(streams, c) && NamesFree(streams, c) && forall n :: n in dests ==> FreeName(streams, n)
    ensures Benign(streams, c, Extended(c, o, dests))
  {
    RenameIsBenign(streams, c);
    BaseIsBenign(streams, c, RenameMetrics(c), dests);
    RestIsBenign(streams, c, AddSelfTelemetry(RenameMetrics(c), dests), o, dests);
  }

  /** The pipelines handed to the callback are those of the routes. */
  lemma {:induction false} RoutePipelinesAre(routes: seq<Route>, n: Name)
    ensures n in RoutePipelines(routes) <==> exists r :: r in routes && r.pipeline == n
  {
    if routes != [] {
      var front, last := routes[..|routes| - 1], routes[|routes| - 1];
      assert routes == front + [last];
      RoutePipelinesAre(front, n);
    }
  }

  lemma RootedIsReady(i: Inputs)
    requires Relied(i) && EndsFree(WiringOf(i).config)
    ensures Ready(StreamNames(i.streams), Rooted(i))
  {
    RootedIsSound(i);
    RootedIsApart(i);
    RootConnectorsAre(PlanOf(i));
    CallbackEndsAreNoConnectors();
  }

  lemma RootedNamesFree(i: Inputs)
    requires Relied(i) && NamesFree(StreamNames(i.streams), WiringOf(i).config)
    ensures NamesFree(StreamNames(i.streams), Rooted(i))
  {
    OwnNamesAreOdd();
    forall n | n in Rooted(i).pipelines ensures !OwnName(n) {
      RootedLookup(i, n);
      if n in Roots(PlanOf(i)) {
        RootsAreRoots(PlanOf(i), n);
      } else if n in OfStreams(WiringOf(i).forwards, i.streams) {
        StreamPipelinesAreNamed(i, n);
      }
    }
  }

  /**
   With the callback of the cluster gateway, the theorems about compiled configurations hold whenever
   the configurers honour their contract and nobody else uses the names of the gateway or the callback.
   */
  lemma CallbackIsReliable(i: Inputs, o: CallbackOptions)
    requires i.selfTelemetry == Some(Callback(o))
    requires StreamsFree(StreamNames(i.streams))
    requires AllHonour(StreamNames(i.streams), Wiring0(i), i.configurers, i.dests)
    requires EndsFree(WiringOf(i).config) && NamesFree(StreamNames(i.streams), WiringOf(i).config)
    ensures Relied(i)
  {
    var alone, streams, dests := i.(selfTelemetry := None), StreamNames(i.streams), RoutePipelines(WiringOf(i).routes);
    RootedIsReady(alone);
    RootedNamesFree(alone);
    PlanIsDefined(alone);
    forall n | n in dests ensures FreeName(streams, n) {
      RoutePipelinesAre(WiringOf(i).routes, n);
      var r :| r in WiringOf(i).routes && r.pipeline == n;
      assert RouteWired(streams, WiringOf(i).config, r);
    }
    CallbackIsBenign(streams, Rooted(i), o, dests);
  }
}
