/**
 Adding the destinations to the gateway configuration (`common/pipelinegen/config_builder.go`, the loop
 over the destinations). Each destination's configurer is unknown code that edits the configuration;
 what it is relied on for is `Honours`. Each pipeline it returns gets a forward connector of its own.
 */
module DestinationWiring {
  import opened Wrappers
  import opened CollectorConfig

  datatype Destination = Destination(id: string, kind: string)

  /** What a configurer returns, with the configuration as it leaves it, whether or not it succeeds. */
  datatype Answer = Configured(config: Config, pipelines: seq<Name>) | Rejected(config: Config, error: string)

  type Configurer = (Destination, Config) -> Answer

  type Configurers = map<string, Configurer>

  /** A pipeline of a successfully configured destination. */
  datatype Route = Route(dest: string, pipeline: Name)

  datatype Wiring = Wiring(
    config: Config,
    forwards: map<string, seq<Name>>,
    routes: seq<Route>,
    signals: set<Signal>,
    status: map<string, Option<string>>)

  /** The signal a pipeline name starts with. */
  function SignalsOf(name: Name): set<Signal> {
    if Carries(name, Traces) then {Traces}
    else if Carries(name, Metrics) then {Metrics}
    else if Carries(name, Logs) then {Logs}
    else if Carries(name, Profiles) then {Profiles}
    else {}
  }

  function Connected(name: Name, p: Pipeline): Pipeline {
    Pipeline(p.receivers + [Forward(name)], p.processors + (if Carries(name, Profiles) then [] else [BATCH]),
      p.exporters)
  }

  function PipelineAt(c: Config, name: Name): Pipeline {
    if name in c.pipelines then c.pipelines[name] else Pipeline([], [], [])
  }

  function ForwardsOf(forwards: map<string, seq<Name>>, id: string): seq<Name> {
    if id in forwards then forwards[id] else []
  }

  function WireName(w: Wiring, id: string, name: Name): Wiring {
    Wiring(
      w.config.(connectors := w.config.connectors[Forward(name) := Opaque],
                pipelines := w.config.pipelines[name := Connected(name, PipelineAt(w.config, name))]),
      w.forwards[id := ForwardsOf(w.forwards, id) + [Forward(name)]],
      w.routes + [Route(id, name)],
      w.signals + SignalsOf(name),
      w.status)
  }

  function WireNames(w: Wiring, id: string, names: seq<Name>): Wiring {
    if names == [] then w else WireName(WireNames(w, id, names[..|names| - 1]), id, names[|names| - 1])
  }

  function WireDest(w: Wiring, configurers: Configurers, d: Destination): Wiring {
    if d.kind !in configurers then w.(status := w.status[d.id := Some("no configer for " + d.kind)])
    else
      match configurers[d.kind](d, w.config)
      case Rejected(config, error) => w.(config := config, status := w.status[d.id := Some(error)])
      case Configured(config, names) =>
        WireNames(w.(config := config), d.id, names).(status := w.status[d.id := None])
  }

  function WireAll(w: Wiring, configurers: Configurers, dests: seq<Destination>): Wiring {
    if dests == [] then w
    else WireDest(WireAll(w, configurers, dests[..|dests| - 1]), configurers, dests[|dests| - 1])
  }

  function Unwired(c: Config): Wiring { Wiring(c, map[], [], {}, map[]) }

  // ---------- what the configurers are relied on for ----------

  /** A name a destination may give a pipeline: of a signal, and not one the gateway uses itself. */
  predicate FreeName(streams: set<Name>, n: Name) {
    && SignalsOf(n) != {} && !IsRoot(n) && n !in streams
    && n !in {EXPORTING, SERVICE_GRAPH_PIPELINE, CORRELATIONS_PIPELINE}
  }

  /**
   A pipeline of a destination names only what is defined. It may use connectors of the destination, from
   pipelines of traces into pipelines of other signals, but none of the gateway's.
   */
  ghost predicate DestinationPipeline(streams: set<Name>, ns: Names, n: Name, p: Pipeline) {
    && FreeName(streams, n) && ClosedPipeline(ns, p)
    && TAIL_SAMPLING !in p.processors
    && (forall r :: r in p.receivers && r in ns.connectors ==> !GatewayConnector(r) && !Carries(n, Traces))
    && (forall e :: e in p.exporters && e in ns.connectors ==> !GatewayConnector(e) && Carries(n, Traces))
  }

  /** Nothing that was there is changed or removed, but things may be added. */
  ghost predicate AddsTo(before: Config, after: Config) {
    && Within(NamesOf(before), NamesOf(after))
    && before.serviceExtensions <= after.serviceExtensions
    && (forall n :: n in before.pipelines ==> n in after.pipelines && after.pipelines[n] == before.pipelines[n])
  }

  /** The contract of a configurer, on one call; a rejected call is held to all of it but the names. */
  ghost predicate Honours(streams: set<Name>, before: Config, answer: Answer) {
    var after := answer.config;
    && AddsTo(before, after) && Apart(NamesOf(after)) && ClosedExtensions(after)
    && (forall n :: n in after.pipelines && n !in before.pipelines ==>
          DestinationPipeline(streams, NamesOf(after), n, after.pipelines[n]))
    && (answer.Configured? ==>
          Distinct(answer.pipelines) && Elements(answer.pipelines) == after.pipelines.Keys - before.pipelines.Keys)
  }

  /** Every call made while the destinations are added honours the contract. */
  ghost predicate AllHonour(streams: set<Name>, w: Wiring, configurers: Configurers, dests: seq<Destination>) {
    dests == [] ||
    (var front, last := dests[..|dests| - 1], dests[|dests| - 1];
     AllHonour(streams, w, configurers, front) &&
     (last.kind in configurers ==>
        var before := WireAll(w, configurers, front).config;
        Honours(streams, before, configurers[last.kind](last, before))))
  }

  // ---------- what the wiring keeps ----------

  /** Every route leads into its pipeline by the pipeline's own connector. */
  ghost predicate RouteWired(streams: set<Name>, c: Config, r: Route) {
    && r.pipeline in c.pipelines && FreeName(streams, r.pipeline)
    && Forward(r.pipeline) in c.connectors && Forward(r.pipeline) in c.pipelines[r.pipeline].receivers
  }

  ghost predicate RoutesWired(streams: set<Name>, w: Wiring) {
    forall r :: r in w.routes ==> RouteWired(streams, w.config, r)
  }

  /** The connectors listed for a destination are those of its pipelines. */
  ghost predicate ForwardsMatch(w: Wiring) {
    forall id, k :: k in ForwardsOf(w.forwards, id) <==>
      exists r :: r in w.routes && r.dest == id && k == Forward(r.pipeline)
  }

  /** The signals are those of the pipelines. */
  ghost predicate SignalsMatch(w: Wiring) {
    forall s :: s in w.signals <==> exists r :: r in w.routes && Carries(r.pipeline, s)
  }

  ghost predicate AllFree(streams: set<Name>, c: Config) {
    forall n :: n in c.pipelines ==> FreeName(streams, n)
  }

  ghost predicate Wired(streams: set<Name>, w: Wiring) {
    && Sound(streams, w.config) && BATCH in w.config.processors && AllFree(streams, w.config)
    && RoutesWired(streams, w) && ForwardsMatch(w) && SignalsMatch(w)
  }

  lemma SignalsOfIs(name: Name, s: Signal)
    ensures s in SignalsOf(name) <==> Carries(name, s)
  {
    forall a: Signal, b: Signal | Carries(name, a) && Carries(name, b) ensures a == b {
      OneSignal(name, a, b);
    }
  }

  lemma RankOfFree(streams: set<Name>, n: Name)
    requires FreeName(streams, n)
    ensures Rank(streams, n) == if Carries(n, Traces) then 3 else 4
  {
  }

  lemma DestinationPipelineFits(streams: set<Name>, ns: Names, n: Name, p: Pipeline)
    requires DestinationPipeline(streams, ns, n, p) && Apart(ns)
    ensures Fit(streams, ns, n, p)
  {
  }

  /** A configurer that honours its contract leaves the configuration sound, even if it rejects. */
  lemma HonouringKeeps(streams: set<Name>, w: Wiring, answer: Answer)
    requires Wired(streams, w) && Honours(streams, w.config, answer)
    ensures Wired(streams, w.(config := answer.config))
  {
    var before, after := w.config, answer.config;
    forall n | n in after.pipelines
      ensures Fit(streams, NamesOf(after), n, after.pipelines[n]) && FreeName(streams, n)
    {
      if n in before.pipelines {
        StaysFit(streams, NamesOf(before), NamesOf(after), n, before.pipelines[n]);
      } else {
        DestinationPipelineFits(streams, NamesOf(after), n, after.pipelines[n]);
      }
    }
    forall r | r in w.routes ensures RouteWired(streams, after, r) {
      assert RouteWired(streams, before, r);
    }
  }

  lemma ForwardIsInjective(a: Name, b: Name)
    ensures Forward(a) == Forward(b) <==> a == b
  {
    assert Forward(a)[|FORWARD|..] == a && Forward(b)[|FORWARD|..] == b;
  }

  lemma ConnectedFits(streams: set<Name>, before: Names, after: Names, name: Name, p: Pipeline)
    requires Fit(streams, before, name, p) && FreeName(streams, name) && Within(before, after) && Apart(after)
    requires Forward(name) in after.connectors && BATCH in after.processors
    ensures Fit(streams, after, name, Connected(name, p))
  {
    StaysFit(streams, before, after, name, p);
    LevelOfForward(name);
    RankOfFree(streams, name);
    assert BATCH[0] == 'b' && TAIL_SAMPLING[0] == 'o' && Forward(name)[0] == 'f' && OTLP[0] == 'o';
  }

  lemma GatewayConnectorsStayApart(ns: Names, ks: set<Name>)
    requires Apart(ns) && forall k :: k in ks ==> (GatewayConnector(k) || k == SERVICE_GRAPH) && !GatewayEnd(k)
    ensures Apart(ns.(connectors := ns.connectors + ks))
  {
  }

  lemma ForwardIsNoEnd(name: Name)
    ensures !GatewayEnd(Forward(name))
  {
    assert Forward(name)[0] == 'f';
  }

  lemma WireNameSound(streams: set<Name>, w: Wiring, id: string, name: Name)
    requires Wired(streams, w) && name in w.config.pipelines
    ensures Sound(streams, WireName(w, id, name).config) && AllFree(streams, WireName(w, id, name).config)
  {
    var before, after := w.config, WireName(w, id, name).config;
    LevelOfForward(name);
    ForwardIsNoEnd(name);
    GatewayConnectorsStayApart(NamesOf(before), {Forward(name)});
    assert NamesOf(after) == NamesOf(before).(connectors := NamesOf(before).connectors + {Forward(name)});
    ConnectedFits(streams, NamesOf(before), NamesOf(after), name, before.pipelines[name]);
    forall n | n in after.pipelines && n != name ensures Fit(streams, NamesOf(after), n, after.pipelines[n]) {
      StaysFit(streams, NamesOf(before), NamesOf(after), n, before.pipelines[n]);
    }
  }

  lemma WireNameRoutes(streams: set<Name>, w: Wiring, id: string, name: Name)
    requires Wired(streams, w) && name in w.config.pipelines
    ensures RoutesWired(streams, WireName(w, id, name))
  {
    var after := WireName(w, id, name);
    forall r | r in after.routes ensures RouteWired(streams, after.config, r) {
      if r in w.routes {
        assert RouteWired(streams, w.config, r);
      } else {
        assert r == Route(id, name);
      }
    }
  }

  lemma WireNameMatches(w: Wiring, id: string, name: Name)
    requires ForwardsMatch(w) && SignalsMatch(w)
    ensures ForwardsMatch(WireName(w, id, name)) && SignalsMatch(WireName(w, id, name))
  {
    var after := WireName(w, id, name);
    forall r ensures r in after.routes <==> r in w.routes || r == Route(id, name) { }
    forall d, k
      ensures k in ForwardsOf(after.forwards, d) <==>
          exists r :: r in after.routes && r.dest == d && k == Forward(r.pipeline)
    {
      assert k in ForwardsOf(after.forwards, d) <==> k in ForwardsOf(w.forwards, d) || (d == id && k == Forward(name));
      assert Route(id, name) in after.routes;
    }
    forall s ensures s in after.signals <==> exists r :: r in after.routes && Carries(r.pipeline, s) {
      SignalsOfIs(name, s);
      assert Route(id, name) in after.routes;
    }
  }

  lemma WireNameKeeps(streams: set<Name>, w: Wiring, id: string, name: Name)
    requires Wired(streams, w) && name in w.config.pipelines
    ensures Wired(streams, WireName(w, id, name))
    ensures WireName(w, id, name).config.pipelines.Keys == w.config.pipelines.Keys
  {
    WireNameSound(streams, w, id, name);
    WireNameRoutes(streams, w, id, name);
    WireNameMatches(w, id, name);
  }

  lemma {:induction false} WireNamesKeeps(streams: set<Name>, w: Wiring, id: string, names: seq<Name>)
    requires Wired(streams, w) && forall n :: n in names ==> n in w.config.pipelines
    ensures Wired(streams, WireNames(w, id, names))
    ensures WireNames(w, id, names).config.pipelines.Keys == w.config.pipelines.Keys
  {
    if names != [] {
      var front, last := names[..|names| - 1], names[|names| - 1];
      assert names == front + [last];
      WireNamesKeeps(streams, w, id, front);
      WireNameKeeps(streams, WireNames(w, id, front), id, last);
    }
  }

  lemma {:induction false} WireAllKeeps(
      streams: set<Name>, w: Wiring, configurers: Configurers, dests: seq<Destination>)
    requires Wired(streams, w) && AllHonour(streams, w, configurers, dests)
    ensures Wired(streams, WireAll(w, configurers, dests))
  {
    if dests != [] {
      var front, d := dests[..|dests| - 1], dests[|dests| - 1];
      WireAllKeeps(streams, w, configurers, front);
      var before := WireAll(w, configurers, front);
      if d.kind in configurers {
        var answer := configurers[d.kind](d, before.config);
        HonouringKeeps(streams, before, answer);
        if answer.Configured? {
          assert forall n :: n in answer.pipelines ==> n in Elements(answer.pipelines);
          WireNamesKeeps(streams, before.(config := answer.config), d.id, answer.pipelines);
          StatusAside(streams, WireNames(before.(config := answer.config), d.id, answer.pipelines),
            before.status[d.id := None]);
        } else {
          StatusAside(streams, before.(config := answer.config), before.status[d.id := Some(answer.error)]);
        }
      } else {
        StatusAside(streams, before, before.status[d.id := Some("no configer for " + d.kind)]);
      }
    }
  }

  lemma StatusAside(streams: set<Name>, w: Wiring, status: map<string, Option<string>>)
    requires Wired(streams, w)
    ensures Wired(streams, w.(status := status))
  {
  }

  lemma {:induction false} WireNamesGrows(w: Wiring, id: string, names: seq<Name>)
    ensures Within(NamesOf(w.config), NamesOf(WireNames(w, id, names).config))
  {
    if names != [] {
      WireNamesGrows(w, id, names[..|names| - 1]);
    }
  }

  /** Nothing defined before the destinations is lost. */
  lemma {:induction false} WireAllGrows(
      streams: set<Name>, w: Wiring, configurers: Configurers, dests: seq<Destination>)
    requires AllHonour(streams, w, configurers, dests)
    ensures Within(NamesOf(w.config), NamesOf(WireAll(w, configurers, dests).config))
  {
    if dests != [] {
      var front, d := dests[..|dests| - 1], dests[|dests| - 1];
      WireAllGrows(streams, w, configurers, front);
      var before := WireAll(w, configurers, front);
      if d.kind in configurers {
        var answer := configurers[d.kind](d, before.config);
        if answer.Configured? {
          WireNamesGrows(before.(config := answer.config), d.id, answer.pipelines);
        }
      }
    }
  }

  lemma {:induction false} WireNamesLeavesOthers(w: Wiring, id: string, names: seq<Name>, n: Name)
    requires n !in names && n in w.config.pipelines
    ensures n in WireNames(w, id, names).config.pipelines
    ensures WireNames(w, id, names).config.pipelines[n] == w.config.pipelines[n]
  {
    if names != [] {
      assert names == names[..|names| - 1] + [names[|names| - 1]];
      WireNamesLeavesOthers(w, id, names[..|names| - 1], n);
    }
  }

  /** One more destination leaves the pipelines alone that were there before it. */
  lemma WireDestLeavesOld(streams: set<Name>, w: Wiring, configurers: Configurers, d: Destination, n: Name)
    requires d.kind in configurers ==> Honours(streams, w.config, configurers[d.kind](d, w.config))
    requires n in w.config.pipelines
    ensures n in WireDest(w, configurers, d).config.pipelines
    ensures WireDest(w, configurers, d).config.pipelines[n] == w.config.pipelines[n]
  {
    if d.kind in configurers {
      var answer := configurers[d.kind](d, w.config);
      if answer.Configured? {
        assert n !in Elements(answer.pipelines);
        WireNamesLeavesOthers(w.(config := answer.config), d.id, answer.pipelines, n);
      }
    }
  }

  /** A pipeline that a rejecting configurer leaves behind is not wired, then or later. */
  lemma {:induction false} RejectedIsNotWired(
      streams: set<Name>, w: Wiring, configurers: Configurers, dests: seq<Destination>, k: nat, n: Name)
    requires AllHonour(streams, w, configurers, dests) && k < |dests| && dests[k].kind in configurers
    requires var answer := configurers[dests[k].kind](dests[k], WireAll(w, configurers, dests[..k]).config);
      answer.Rejected? && n in answer.config.pipelines
    ensures var answer := configurers[dests[k].kind](dests[k], WireAll(w, configurers, dests[..k]).config);
      n in WireAll(w, configurers, dests).config.pipelines &&
      WireAll(w, configurers, dests).config.pipelines[n] == answer.config.pipelines[n]
    ensures n !in WireAll(w, configurers, dests[..k]).config.pipelines ==>
              Forward(n) !in WireAll(w, configurers, dests).config.pipelines[n].receivers
  {
    var front, d := dests[..|dests| - 1], dests[|dests| - 1];
    if k < |front| {
      assert front[..k] == dests[..k] && front[k] == dests[k];
      RejectedIsNotWired(streams, w, configurers, front, k, n);
      WireDestLeavesOld(streams, WireAll(w, configurers, front), configurers, d, n);
    } else {
      assert dests[..k] == front;
      LevelOfForward(n);
    }
  }

  /** A pipeline has its forward connector only if it was wired. */
  ghost predicate OnlyRoutesForward(w: Wiring) {
    forall n :: n in w.config.pipelines && Forward(n) in w.config.pipelines[n].receivers ==>
      exists r :: r in w.routes && r.pipeline == n
  }

  lemma HonouringForwardsNothing(streams: set<Name>, w: Wiring, answer: Answer)
    requires OnlyRoutesForward(w) && Honours(streams, w.config, answer)
    ensures OnlyRoutesForward(w.(config := answer.config))
  {
    forall n ensures GatewayConnector(Forward(n)) {
      LevelOfForward(n);
    }
  }

  lemma {:induction false} WireNamesForwards(w: Wiring, id: string, names: seq<Name>)
    requires OnlyRoutesForward(w)
    ensures OnlyRoutesForward(WireNames(w, id, names))
  {
    if names != [] {
      var before, last := WireNames(w, id, names[..|names| - 1]), names[|names| - 1];
      WireNamesForwards(w, id, names[..|names| - 1]);
      assert Route(id, last) in WireName(before, id, last).routes;
      assert forall r :: r in before.routes ==> r in WireName(before, id, last).routes;
    }
  }

  lemma {:induction false} WireAllForwards(
      streams: set<Name>, w: Wiring, configurers: Configurers, dests: seq<Destination>)
    requires OnlyRoutesForward(w) && AllHonour(streams, w, configurers, dests)
    ensures OnlyRoutesForward(WireAll(w, configurers, dests))
  {
    if dests != [] {
      var front, d := dests[..|dests| - 1], dests[|dests| - 1];
      WireAllForwards(streams, w, configurers, front);
      var before := WireAll(w, configurers, front);
      if d.kind in configurers {
        var answer := configurers[d.kind](d, before.config);
        HonouringForwardsNothing(streams, before, answer);
        if answer.Configured? {
          WireNamesForwards(before.(config := answer.config), d.id, answer.pipelines);
        }
      }
    }
  }

  // ---------- what becomes of each destination ----------

  lemma {:induction false} WireNamesKeepsStatus(w: Wiring, id: string, names: seq<Name>)
    ensures WireNames(w, id, names).status == w.status
  {
    if names != [] {
      WireNamesKeepsStatus(w, id, names[..|names| - 1]);
    }
  }

  /** Exactly the destinations there are have a status. */
  lemma {:induction false} StatusesAre(w: Wiring, configurers: Configurers, dests: seq<Destination>, id: string)
    requires w.status == map[]
    ensures id in WireAll(w, configurers, dests).status <==> exists k :: 0 <= k < |dests| && dests[k].id == id
  {
    if dests != [] {
      var front, d := dests[..|dests| - 1], dests[|dests| - 1];
      assert forall k :: 0 <= k < |front| ==> front[k] == dests[k];
      assert dests[|front|] == d;
      StatusesAre(w, configurers, front, id);
      WireDestStatus(WireAll(w, configurers, front), configurers, d);
    }
  }

  /**
   If ids are unique, the status of a destination is what its configurer answered, on the configuration
   that the destinations before it left behind.
   */
  lemma {:induction false} StatusIs(w: Wiring, configurers: Configurers, dests: seq<Destination>, k: nat)
    requires k < |dests| && forall j :: k < j < |dests| ==> dests[j].id != dests[k].id
    ensures dests[k].id in WireAll(w, configurers, dests).status
    ensures WireAll(w, configurers, dests).status[dests[k].id] ==
              if dests[k].kind !in configurers then Some("no configer for " + dests[k].kind)
              else
                match configurers[dests[k].kind](dests[k], WireAll(w, configurers, dests[..k]).config)
                case Configured(_, _) => None
                case Rejected(_, error) => Some(error)
  {
    var front, d := dests[..|dests| - 1], dests[|dests| - 1];
    WireDestStatus(WireAll(w, configurers, front), configurers, d);
    if k < |front| {
      assert front[..k] == dests[..k] && forall j :: 0 <= j < |front| ==> front[j] == dests[j];
      StatusIs(w, configurers, front, k);
    } else {
      assert dests[..k] == front;
    }
  }

  lemma WireDestStatus(w: Wiring, configurers: Configurers, d: Destination)
    ensures WireDest(w, configurers, d).status ==
              w.status[d.id := if d.kind !in configurers then Some("no configer for " + d.kind)
                               else
                                 match configurers[d.kind](d, w.config)
                                 case Configured(_, _) => None
                                 case Rejected(_, error) => Some(error)]
  {
    if d.kind in configurers {
      var answer := configurers[d.kind](d, w.config);
      if answer.Configured? {
        WireNamesKeepsStatus(w.(config := answer.config), d.id, answer.pipelines);
      }
    }
  }

  lemma {:induction false} WireNamesConnects(w: Wiring, id: string, names: seq<Name>, n: Name)
    requires Distinct(names) && n in names && n in w.config.pipelines
    ensures n in WireNames(w, id, names).config.pipelines
    ensures var p, q := w.config.pipelines[n], WireNames(w, id, names).config.pipelines[n];
      && q.receivers == p.receivers + [FORWARD + n] && q.exporters == p.exporters
      && q.processors == p.processors + if SignalPrefix(Profiles) <= n then [] else [BATCH]
  {
    var front, last := names[..|names| - 1], names[|names| - 1];
    assert names == front + [last];
    if n == last {
      WireNamesLeavesOthers(w, id, front, n);
    } else {
      WireNamesConnects(w, id, front, n);
    }
  }

  /**
   A pipeline of a successful configurer stays as that left it, but for its forward connector as one more
   receiver and the batcher as one more processor, which those of profiles do without.
   */
  lemma {:induction false} WiredPipelineIs(
      streams: set<Name>, w: Wiring, configurers: Configurers, dests: seq<Destination>, k: nat, n: Name)
    requires AllHonour(streams, w, configurers, dests) && k < |dests| && dests[k].kind in configurers
    requires var answer := configurers[dests[k].kind](dests[k], WireAll(w, configurers, dests[..k]).config);
      answer.Configured? && n in answer.pipelines
    ensures var answer := configurers[dests[k].kind](dests[k], WireAll(w, configurers, dests[..k]).config);
      && n in answer.config.pipelines && n in WireAll(w, configurers, dests).config.pipelines
      && var p, q := answer.config.pipelines[n], WireAll(w, configurers, dests).config.pipelines[n];
      && q.receivers == p.receivers + [FORWARD + n] && q.exporters == p.exporters
      && q.processors == p.processors + if SignalPrefix(Profiles) <= n then [] else [BATCH]
  {
    var front, d := dests[..|dests| - 1], dests[|dests| - 1];
    if k < |front| {
      assert front[..k] == dests[..k] && front[k] == dests[k];
      WiredPipelineIs(streams, w, configurers, front, k, n);
      WireDestLeavesOld(streams, WireAll(w, configurers, front), configurers, d, n);
    } else {
      assert dests[..k] == front;
      var before := WireAll(w, configurers, front);
      var answer := configurers[d.kind](d, before.config);
      assert n in Elements(answer.pipelines);
      WireNamesConnects(before.(config := answer.config), d.id, answer.pipelines, n);
    }
  }
}
