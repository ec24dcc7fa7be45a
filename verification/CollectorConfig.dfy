/**
 The collector configuration (`common/config/config.go`) as a graph: pipelines joined by connectors,
 which are exporters of one pipeline and receivers of another. What a component is configured with does
 not matter here, except for the scrape jobs of the collector's own metrics.
 */
module CollectorConfig {
  import opened Wrappers

  type Name = string

  datatype Component = Opaque | Scraping(jobs: seq<string>)

  type Components = map<Name, Component>

  datatype Pipeline = Pipeline(receivers: seq<Name>, processors: seq<Name>, exporters: seq<Name>)

  type Pipelines = map<Name, Pipeline>

  datatype ResourceAttribute = ResourceAttribute(name: string, value: string)

  datatype Telemetry = Telemetry(
    metricsLevel: string, readers: seq<Component>, logsLevel: string, resource: Option<seq<ResourceAttribute>>)

  const NO_TELEMETRY := Telemetry("", [], "", None)

  datatype Config = Config(
    receivers: Components,
    exporters: Components,
    processors: Components,
    extensions: Components,
    connectors: Components,
    serviceExtensions: seq<Name>,
    pipelines: Pipelines,
    telemetry: Telemetry)

  datatype Signal = Logs | Metrics | Traces | Profiles

  // ---------- names ----------

  function SignalName(s: Signal): string {
    match s
    case Logs => "logs"
    case Metrics => "metrics"
    case Traces => "traces"
    case Profiles => "profiles"
  }

  function SignalPrefix(s: Signal): string { SignalName(s) + "/" }

  predicate Carries(name: Name, s: Signal) { SignalPrefix(s) <= name }

  function RootName(s: Signal): Name { SignalPrefix(s) + "in" }

  const ROUTER := "odigosrouterconnector/"
  const FORWARD := "forward/"

  function Router(s: Signal): Name { ROUTER + SignalName(s) }
  function Forward(pipeline: Name): Name { FORWARD + pipeline }

  const OTLP := "otlp"
  const VERSION := "resource/odigos-version"
  const POD_NAME := "resource/pod-name"
  const BATCH := "batch/generic-batch-processor"
  const GROUP_BY_TRACE := "groupbytrace"
  const POST_GROUP_BY := "forward/traces-post-groupby"
  const EXPORTING := "traces/exporting"
  const TAIL_SAMPLING := "odigostailsampling"
  const TRACE_STATE := "odigostracestate"
  const SERVICE_GRAPH := "servicegraph"
  const SERVICE_GRAPH_PIPELINE := "metrics/servicegraph"
  const SERVICE_GRAPH_EXPORTER := "prometheus/servicegraph"
  const INSIGHTS_EXPORTER := "otlp_grpc/servicegraph-insights"
  const SERVICE_IO := "serviceio"
  const CORRELATIONS_PIPELINE := "metrics/tracecorrelations"
  const CORRELATIONS_EXPORTER := "otlp_http/odigos-correlations-metrics"
  const SELF_METRICS := "prometheus/self-metrics"
  const CLUSTER_RECEIVER := "k8s_cluster"
  const LEADER_ELECTOR := "k8s_leader_elector"

  predicate IsRoot(name: Name) {
    name == RootName(Logs) || name == RootName(Metrics) || name == RootName(Traces) || name == RootName(Profiles)
  }

  lemma RootNamesDiffer(a: Signal, b: Signal)
    ensures RootName(a) == RootName(b) <==> a == b
    ensures Router(a) == Router(b) <==> a == b
    ensures RootName(a) != EXPORTING && RootName(a) != SERVICE_GRAPH_PIPELINE && RootName(a) != CORRELATIONS_PIPELINE
  {
  }

  lemma FirstLetters(a: Signal, b: Signal)
    ensures SignalName(a)[0] == SignalName(b)[0] <==> a == b
  {
  }

  /** A name carries at most one signal. */
  lemma OneSignal(name: Name, a: Signal, b: Signal)
    requires Carries(name, a) && Carries(name, b)
    ensures a == b
  {
    FirstLetters(a, b);
    assert name[0] == SignalName(a)[0] && name[0] == SignalName(b)[0];
  }

  // ---------- references ----------

  datatype Names = Names(
    receivers: set<Name>, exporters: set<Name>, processors: set<Name>, extensions: set<Name>, connectors: set<Name>)

  function NamesOf(c: Config): Names {
    Names(c.receivers.Keys, c.exporters.Keys, c.processors.Keys, c.extensions.Keys, c.connectors.Keys)
  }

  predicate Within(a: Names, b: Names) {
    && a.receivers <= b.receivers && a.exporters <= b.exporters && a.processors <= b.processors
    && a.extensions <= b.extensions && a.connectors <= b.connectors
  }

  /** Everything the pipeline names is defined. */
  ghost predicate ClosedPipeline(ns: Names, p: Pipeline) {
    && (forall r :: r in p.receivers ==> r in ns.receivers || r in ns.connectors)
    && (forall q :: q in p.processors ==> q in ns.processors)
    && (forall e :: e in p.exporters ==> e in ns.exporters || e in ns.connectors)
  }

  ghost predicate ClosedExtensions(c: Config) {
    forall e :: e in c.serviceExtensions ==> e in c.extensions
  }

  /** Every receiver, processor, exporter and extension that is named is defined. */
  ghost predicate ReferenceClosed(c: Config) {
    ClosedExtensions(c) && forall n :: n in c.pipelines ==> ClosedPipeline(NamesOf(c), c.pipelines[n])
  }

  // ---------- the connector graph ----------

  /** Data goes from one pipeline straight to another. */
  ghost predicate Feeds(c: Config, a: Name, b: Name) {
    a in c.pipelines && b in c.pipelines &&
    exists k :: k in c.connectors && k in c.pipelines[a].exporters && k in c.pipelines[b].receivers
  }

  ghost predicate IsPath(c: Config, path: seq<Name>) {
    && path != [] && (forall k :: 0 <= k < |path| ==> path[k] in c.pipelines)
    && forall k :: 0 <= k < |path| - 1 ==> Feeds(c, path[k], path[k + 1])
  }

  /** Roots, traces/exporting, data streams, destinations of traces, and all the others. */
  function Rank(streams: set<Name>, name: Name): nat {
    if IsRoot(name) then 0
    else if name == EXPORTING then 1
    else if name in streams then 2
    else if Carries(name, Traces) then 3
    else 4
  }

  /** The rank of the pipelines a connector may lead to. */
  function Level(connector: Name): nat {
    if connector == POST_GROUP_BY then 1
    else if ROUTER <= connector then 2
    else if FORWARD + SignalPrefix(Traces) <= connector then 3
    else 4
  }

  /** Data comes in from connectors of its own rank or lower, and goes out to connectors above it. */
  ghost predicate Graded(streams: set<Name>, connectors: set<Name>, name: Name, p: Pipeline) {
    && (forall r :: r in p.receivers && r in connectors ==> Level(r) <= Rank(streams, name))
    && (forall e :: e in p.exporters && e in connectors ==> Rank(streams, name) < Level(e))
  }

  ghost predicate AllGraded(streams: set<Name>, c: Config) {
    forall n :: n in c.pipelines ==> Graded(streams, c.connectors.Keys, n, c.pipelines[n])
  }

  lemma FeedsUp(streams: set<Name>, c: Config, a: Name, b: Name)
    requires AllGraded(streams, c) && Feeds(c, a, b)
    ensures Rank(streams, a) < Rank(streams, b)
  {
  }

  /** Ranks rise along every path, so data never comes back to a pipeline and passes at most five. */
  lemma {:induction false} PathsAscend(streams: set<Name>, c: Config, path: seq<Name>, i: nat, j: nat)
    requires AllGraded(streams, c) && IsPath(c, path) && i < j < |path|
    ensures Rank(streams, path[i]) + (j - i) <= Rank(streams, path[j])
    ensures path[i] != path[j]
  {
    if i + 1 < j {
      PathsAscend(streams, c, path, i, j - 1);
    }
    assert Feeds(c, path[j - 1], path[j - 1 + 1]);
    FeedsUp(streams, c, path[j - 1], path[j]);
  }

  lemma PathsAreShort(streams: set<Name>, c: Config, path: seq<Name>)
    requires AllGraded(streams, c) && IsPath(c, path)
    ensures |path| <= 5
  {
    if |path| > 1 {
      PathsAscend(streams, c, path, 0, |path| - 1);
    }
  }

  // ---------- connectors and what is not one ----------

  /** Connectors that only the gateway itself defines. */
  predicate GatewayConnector(n: Name) {
    FORWARD <= n || ROUTER <= n || n == SERVICE_IO
  }

  /** Receivers and exporters that the gateway itself defines. */
  predicate GatewayEnd(n: Name) {
    n in {OTLP, CLUSTER_RECEIVER, SERVICE_GRAPH_EXPORTER, INSIGHTS_EXPORTER, CORRELATIONS_EXPORTER}
  }

  /** No connector is also a receiver or an exporter, now or when the gateway adds its own. */
  ghost predicate Apart(ns: Names) {
    && (forall k :: k in ns.connectors ==> k !in ns.receivers && k !in ns.exporters && !GatewayEnd(k))
    && (forall n :: n in ns.receivers || n in ns.exporters ==> !GatewayConnector(n) && n != SERVICE_GRAPH)
  }

  /** What is known of every pipeline, at every stage, by its name. */
  ghost predicate Fit(streams: set<Name>, ns: Names, name: Name, p: Pipeline) {
    && ClosedPipeline(ns, p) && Graded(streams, ns.connectors, name, p)
    && (forall r :: r in p.receivers && FORWARD <= r ==>
      r == Forward(name) || (r == POST_GROUP_BY && name == EXPORTING))
    && (forall r :: r in p.receivers && ROUTER <= r ==> name in streams)
    && (forall e :: e in p.exporters && FORWARD <= e && e != POST_GROUP_BY ==> name in streams)
    && (TAIL_SAMPLING in p.processors ==> name == EXPORTING)
  }

  ghost predicate Sound(streams: set<Name>, c: Config) {
    && Apart(NamesOf(c)) && ClosedExtensions(c)
    && forall n :: n in c.pipelines ==> Fit(streams, NamesOf(c), n, c.pipelines[n])
  }

  lemma StaysFit(streams: set<Name>, a: Names, b: Names, name: Name, p: Pipeline)
    requires Fit(streams, a, name, p) && Within(a, b) && Apart(b)
    ensures Fit(streams, b, name, p)
  {
  }

  lemma LevelOfForward(name: Name)
    ensures Level(Forward(name)) ==
        (if name == "traces-post-groupby" then 1 else if Carries(name, Traces) then 3 else 4)
    ensures GatewayConnector(Forward(name))
  {
    assert POST_GROUP_BY == Forward("traces-post-groupby");
    assert Forward(name)[|FORWARD|..] == name;
    if Carries(name, Traces) {
      assert FORWARD + SignalPrefix(Traces) <= Forward(name);
    }
    if FORWARD + SignalPrefix(Traces) <= Forward(name) {
      assert Forward(name)[|FORWARD|..][..|SignalPrefix(Traces)|] == SignalPrefix(Traces);
    }
    assert Forward(name)[0] == 'f';
  }

  lemma LevelOfRouter(s: Signal)
    ensures Level(Router(s)) == 2 && GatewayConnector(Router(s)) && !(FORWARD <= Router(s))
  {
    assert Router(s)[0] == 'o';
  }
}
