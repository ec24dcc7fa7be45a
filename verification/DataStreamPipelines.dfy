/**
 One pipeline for each data stream and signal, from the router of the signal to the destinations of the
 stream (`common/pipelinegen/pipeline_builder.go`, buildDataStreamPipelines).
 */
module DataStreamPipelines {
  import opened Wrappers
  import opened CollectorConfig
  import opened DestinationWiring

  datatype DataStream = DataStream(name: string, destinations: seq<string>)

  const SIGNALS := [Logs, Metrics, Traces, Profiles]

  function StreamPipeline(signal: Signal, stream: DataStream): Name { SignalPrefix(signal) + stream.name }

  /** The connectors of one signal, in order. */
  function OfSignal(connectors: seq<Name>, signal: Signal): seq<Name> {
    if connectors == [] then []
    else
      var last := connectors[|connectors| - 1];
      OfSignal(connectors[..|connectors| - 1], signal) + if FORWARD + SignalPrefix(signal) <= last then [last] else []
  }

  /** The forward connectors of the destinations, of one signal, in order. */
  function Exporters(forwards: map<string, seq<Name>>, dests: seq<string>, signal: Signal): seq<Name> {
    if dests == [] then []
    else
      Exporters(forwards, dests[..|dests| - 1], signal) + OfSignal(ForwardsOf(forwards, dests[|dests| - 1]), signal)
  }

  function PipelineOf(forwards: map<string, seq<Name>>, stream: DataStream, signal: Signal): Pipeline {
    Pipeline(
      [Router(signal)],
      if signal == Profiles then [] else [BATCH],
      Exporters(forwards, stream.destinations, signal))
  }

  /** The pipelines of one stream for some signals; a signal without exporters gets none. */
  function OfStream(forwards: map<string, seq<Name>>, stream: DataStream, signals: seq<Signal>): Pipelines {
    if signals == [] then map[]
    else
      var front, s := OfStream(forwards, stream, signals[..|signals| - 1]), signals[|signals| - 1];
      var p := PipelineOf(forwards, stream, s);
      if p.exporters != [] then front[StreamPipeline(s, stream) := p] else front
  }

  function OfStreams(forwards: map<string, seq<Name>>, streams: seq<DataStream>): Pipelines {
    if streams == [] then map[]
    else
      OfStreams(forwards, streams[..|streams| - 1]) + OfStream(forwards, streams[|streams| - 1], SIGNALS)
  }

  method BuildDataStreamPipelines(dataStreams: seq<DataStream>, forwardConnectorByDest: map<string, seq<Name>>)
    returns (pipelines: Pipelines)
    ensures pipelines == OfStreams(forwardConnectorByDest, dataStreams)
  {
    pipelines := map[];
    for i := 0 to |dataStreams|
      invariant pipelines == OfStreams(forwardConnectorByDest, dataStreams[..i])
    {
      assert dataStreams[..i + 1][..i] == dataStreams[..i];
      pipelines := AddStream(pipelines, dataStreams[i], SIGNALS, forwardConnectorByDest);
    }
    assert dataStreams[..|dataStreams|] == dataStreams;
  }

  /** The body of the outer loop. */
  method AddStream(
      before: Pipelines, dataStream: DataStream, signals: seq<Signal>, forwardConnectorByDest: map<string, seq<Name>>)
    returns (pipelines: Pipelines)
    ensures pipelines == before + OfStream(forwardConnectorByDest, dataStream, signals)
  {
    pipelines := before;
    for j := 0 to |signals|
      invariant pipelines == before + OfStream(forwardConnectorByDest, dataStream, signals[..j])
    {
      var signal := signals[j];
      var exporters := BuildExporters(dataStream.destinations, forwardConnectorByDest, signal);
      var pipeline := Pipeline([Router(signal)], if signal != Profiles then [BATCH] else [], exporters);
      assert signals[..j + 1] == signals[..j] + [signal];
      OneMoreSignal(before, forwardConnectorByDest, dataStream, signals[..j], signal);
      if |pipeline.exporters| > 0 {
        pipelines := pipelines[StreamPipeline(signal, dataStream) := pipeline];
      }
    }
    assert signals[..|signals|] == signals;
  }

  lemma OneMoreSignal(
      before: Pipelines, forwards: map<string, seq<Name>>, stream: DataStream, signals: seq<Signal>, s: Signal)
    ensures var p, built := PipelineOf(forwards, stream, s), before + OfStream(forwards, stream, signals);
      before + OfStream(forwards, stream, signals + [s]) ==
        if p.exporters != [] then built[StreamPipeline(s, stream) := p] else built
  {
  }

  /** The two innermost loops: the destinations of a stream, and the connectors of each. */
  method BuildExporters(dests: seq<string>, forwardConnectorByDest: map<string, seq<Name>>, signal: Signal)
    returns (exporters: seq<Name>)
    ensures exporters == Exporters(forwardConnectorByDest, dests, signal)
  {
    exporters := [];
    for i := 0 to |dests|
      invariant exporters == Exporters(forwardConnectorByDest, dests[..i], signal)
    {
      assert dests[..i + 1][..i] == dests[..i];
      if dests[i] !in forwardConnectorByDest {
        continue;
      }
      exporters := AddConnectors(exporters, forwardConnectorByDest[dests[i]], signal);
    }
    assert dests[..|dests|] == dests;
  }

  method AddConnectors(before: seq<Name>, connectors: seq<Name>, signal: Signal) returns (exporters: seq<Name>)
    ensures exporters == before + OfSignal(connectors, signal)
  {
    exporters := before;
    for j := 0 to |connectors|
      invariant exporters == before + OfSignal(connectors[..j], signal)
    {
      assert connectors[..j + 1][..j] == connectors[..j];
      if FORWARD + SignalPrefix(signal) <= connectors[j] {
        exporters := exporters + [connectors[j]];
      }
    }
    assert connectors[..|connectors|] == connectors;
  }

  // ---------- what the pipelines are ----------

  lemma {:induction false} OfSignalIs(connectors: seq<Name>, signal: Signal, k: Name)
    ensures k in OfSignal(connectors, signal) <==> k in connectors && FORWARD + SignalPrefix(signal) <= k
  {
    if connectors != [] {
      var front, last := connectors[..|connectors| - 1], connectors[|connectors| - 1];
      assert connectors == front + [last];
      OfSignalIs(front, signal, k);
    }
  }

  lemma {:induction false} ExportersAre(forwards: map<string, seq<Name>>, dests: seq<string>, signal: Signal, k: Name)
    ensures k in Exporters(forwards, dests, signal) <==>
              FORWARD + SignalPrefix(signal) <= k && exists d :: d in dests && k in ForwardsOf(forwards, d)
  {
    if dests != [] {
      var front, last := dests[..|dests| - 1], dests[|dests| - 1];
      assert dests == front + [last];
      ExportersAre(forwards, front, signal, k);
      OfSignalIs(ForwardsOf(forwards, last), signal, k);
    }
  }

  lemma ForwardCarries(name: Name, s: Signal)
    ensures FORWARD + SignalPrefix(s) <= Forward(name) <==> Carries(name, s)
  {
    assert Forward(name)[|FORWARD|..] == name;
    if FORWARD + SignalPrefix(s) <= Forward(name) {
      assert Forward(name)[|FORWARD|..][..|SignalPrefix(s)|] == SignalPrefix(s);
    }
  }

  /** Of the wired destinations, a stream exports to exactly the pipelines of its own, of its signal. */
  lemma ExportsToItsDestinations(w: Wiring, stream: DataStream, signal: Signal, k: Name)
    requires ForwardsMatch(w)
    ensures k in PipelineOf(w.forwards, stream, signal).exporters <==>
              exists r :: r in w.routes && r.dest in stream.destinations && Carries(r.pipeline, signal) &&
                k == Forward(r.pipeline)
  {
    ExportersAre(w.forwards, stream.destinations, signal, k);
    if d :| d in stream.destinations && k in ForwardsOf(w.forwards, d) {
      var r :| r in w.routes && r.dest == d && k == Forward(r.pipeline);
      ForwardCarries(r.pipeline, signal);
    }
    if r :| r in w.routes && r.dest in stream.destinations && Carries(r.pipeline, signal) && k == Forward(r.pipeline) {
      ForwardCarries(r.pipeline, signal);
      assert k in ForwardsOf(w.forwards, r.dest);
    }
  }

  /** A pipeline of a stream, if it has one for the signal. */
  ghost predicate IsStreamPipeline(
      forwards: map<string, seq<Name>>, stream: DataStream, signal: Signal, name: Name, p: Pipeline) {
    name == StreamPipeline(signal, stream) && p == PipelineOf(forwards, stream, signal) && p.exporters != []
  }

  lemma StreamPipelinesDiffer(a: Signal, s: DataStream, b: Signal, t: DataStream)
    ensures StreamPipeline(a, s) == StreamPipeline(b, t) <==> a == b && s.name == t.name
  {
    var x, y := StreamPipeline(a, s), StreamPipeline(b, t);
    assert Carries(x, a) && Carries(y, b);
    if x == y {
      OneSignal(x, a, b);
      assert x[|SignalPrefix(a)|..] == s.name && y[|SignalPrefix(b)|..] == t.name;
    }
  }

  lemma {:induction false} OfStreamIs(
      forwards: map<string, seq<Name>>, stream: DataStream, signals: seq<Signal>, name: Name)
    ensures name in OfStream(forwards, stream, signals) ==>
              exists s :: s in signals &&
                IsStreamPipeline(forwards, stream, s, name, OfStream(forwards, stream, signals)[name])
    ensures forall s :: s in signals && StreamPipeline(s, stream) == name ==>
              (name in OfStream(forwards, stream, signals) <==> PipelineOf(forwards, stream, s).exporters != [])
  {
    if signals != [] {
      var front, last := signals[..|signals| - 1], signals[|signals| - 1];
      assert signals == front + [last];
      OfStreamIs(forwards, stream, front, name);
      forall s | s in signals && StreamPipeline(s, stream) == name
        ensures name in OfStream(forwards, stream, signals) <==> PipelineOf(forwards, stream, s).exporters != []
      {
        StreamPipelinesDiffer(s, stream, last, stream);
      }
      if name in OfStream(forwards, stream, signals) && name == StreamPipeline(last, stream) &&
         PipelineOf(forwards, stream, last).exporters != [] {
        assert IsStreamPipeline(forwards, stream, last, name, OfStream(forwards, stream, signals)[name]);
      }
    }
  }

  /** Every pipeline built belongs to a stream and a signal. */
  lemma {:induction false} EveryPipelineHasAStream(
      forwards: map<string, seq<Name>>, streams: seq<DataStream>, name: Name)
    requires name in OfStreams(forwards, streams)
    ensures exists d, s ::
              d in streams && s in SIGNALS && IsStreamPipeline(forwards, d, s, name, OfStreams(forwards, streams)[name])
  {
    var front, last := streams[..|streams| - 1], streams[|streams| - 1];
    assert streams == front + [last];
    if name in OfStream(forwards, last, SIGNALS) {
      OfStreamIs(forwards, last, SIGNALS, name);
    } else {
      EveryPipelineHasAStream(forwards, front, name);
    }
  }

  ghost predicate DistinctNames(streams: seq<DataStream>) {
    forall i, j :: 0 <= i < j < |streams| ==> streams[i].name != streams[j].name
  }

  lemma EverySignal(s: Signal)
    ensures s in SIGNALS
  {
    assert SIGNALS[0] == Logs && SIGNALS[1] == Metrics && SIGNALS[2] == Traces && SIGNALS[3] == Profiles;
  }

  /** Its own pipelines are those of its name. */
  lemma OfStreamAt(forwards: map<string, seq<Name>>, d: DataStream, s: Signal, e: DataStream)
    ensures var name, p := StreamPipeline(s, d), PipelineOf(forwards, d, s);
      && (name in OfStream(forwards, e, SIGNALS) ==> e.name == d.name)
      && (name in OfStream(forwards, d, SIGNALS) <==> p.exporters != [])
      && (name in OfStream(forwards, d, SIGNALS) ==> OfStream(forwards, d, SIGNALS)[name] == p)
  {
    var name := StreamPipeline(s, d);
    EverySignal(s);
    OfStreamIs(forwards, d, SIGNALS, name);
    OfStreamIs(forwards, e, SIGNALS, name);
    forall t: Signal, f: DataStream | StreamPipeline(t, f) == name ensures t == s && f.name == d.name {
      StreamPipelinesDiffer(s, d, t, f);
    }
  }

  lemma {:induction false} NoPipelineOfOthers(
      forwards: map<string, seq<Name>>, streams: seq<DataStream>, d: DataStream, s: Signal)
    requires forall e :: e in streams ==> e.name != d.name
    ensures StreamPipeline(s, d) !in OfStreams(forwards, streams)
  {
    if streams != [] {
      var front, last := streams[..|streams| - 1], streams[|streams| - 1];
      assert streams == front + [last];
      NoPipelineOfOthers(forwards, front, d, s);
      OfStreamAt(forwards, d, s, last);
    }
  }

  /**
   When no two streams have the same name, each stream has its own pipeline for a signal, if and only if
   it has something of the signal to export to.
   */
  lemma {:induction false} EveryStreamHasItsPipelines(
      forwards: map<string, seq<Name>>, streams: seq<DataStream>, d: DataStream, s: Signal)
    requires DistinctNames(streams) && d in streams
    ensures var name, p := StreamPipeline(s, d), PipelineOf(forwards, d, s);
      if p.exporters == [] then name !in OfStreams(forwards, streams)
      else name in OfStreams(forwards, streams) && OfStreams(forwards, streams)[name] == p
  {
    var front, last := streams[..|streams| - 1], streams[|streams| - 1];
    assert streams == front + [last];
    OfStreamAt(forwards, d, s, last);
    if d == last {
      NoPipelineOfOthers(forwards, front, d, s);
    } else {
      assert d in front && d.name != last.name;
      EveryStreamHasItsPipelines(forwards, front, d, s);
    }
  }
}
