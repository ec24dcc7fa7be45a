# Verified models of Odigos components

This project models the parts of Odigos whose correctness is hardest to see by reading one function, and
proves what they promise over every input, run or interleaving.

* **The eBPF instrumentation manager** (`Instrumentation*.dfy`). The event loop keeps one record for each
  process in three tables, loads and closes instrumentations, reports to the outside and moves two counters.
  `InstrumentationModel` says what each step does to the tables and to a log of everything the environment
  sees; `InstrumentationManager` is the event loop itself, a class that updates the tables in place and is
  tied to the model method by method. Answers of factories, `Load`, `Distribution`, `ConfigGroup` and
  `ProcessGroup` are arbitrary parameters of each step. `InstrumentationOutcomes` and `InstrumentationRequests`
  say what one attempt and one request come to, from the records before and after and the reports.
* **The gateway pipeline compiler** (`CollectorConfig`, `CrdProcessors`, `TracesSplit`, `DestinationWiring`,
  `DataStreamPipelines`, `GatewayConfig`, `GatewaySoundness`, `GatewayEnds`, `GatewayBlueprint`, `GatewayBuilder`).
  Destinations, data streams, processors and options become a graph of pipelines joined by connectors.
  `GatewayConfig` gives every stage as a function, `GatewaySoundness` and `GatewayEnds` prove the theorems about the whole graph, and
  `GatewayBuilder` carries the stages out in place on one configuration object. `GatewayCallback` models the
  callback of the cluster gateway and `Jaeger` one configurer; both are shown to honour the contracts that the
  theorems rely on. `GatewayBlueprint` reads the compiled configuration off the inputs pipeline by pipeline,
  and the statuses with it, without naming the stages it is built in.
* **Merging collector configurations** (`MergeConfigs.dfy`).
* **The profile cache** (`Profile*.dfy`): a byte-budgeted queue over a window of an array that is zeroed and
  compacted in place, a least-recently-requested store of such queues, and a step model of concurrent callers.
* **URL path rules** (`Text.dfy`, `UrlTemplate.dfy`): a fast string comparison against matching by segments.
* **The dotted-path editor** (`ConfigPath.dfy`) and **the fallback resolver of distributions** (`Distros.dfy`).

## What is relied on

* Instrumentation manager: a failing `Load` cleans up after itself, factories hand out instrumentations that
  are not handed out before. That process groups are stable while a process is tracked is assumed only where a
  member says so (`StableRun`), and `StartTrackAgrees` shows that exactly this is needed.
* Gateway: each `ModifyConfig` call honours the contract `DestinationWiring.Honours` — it only adds, names
  only what is defined, and names its pipelines with a signal prefix and not as the gateway does itself. A
  configurer is not relied on to undo anything when it fails. The self-telemetry callback honours `Benign`:
  it may add pipelines of its own that no connector feeds, exporters to the roots and to traces/exporting, and
  processors other than the tail sampler, in the middle of the roots of other signals than traces and at the
  end elsewhere. No data stream has a name that makes its pipeline one of the gateway's own (`StreamsFree`);
  routing isolation also assumes that no two data streams have the same name. `GatewaySoundness.Relied` is all
  of this. For the callback of the cluster gateway it is proved (`GatewayCallback.CallbackIsReliable`), as long
  as nobody else uses the names of its pipelines, receivers and exporters.
* Profile cache: the memory bound over whole runs assumes that no source has the empty key. For one opening,
  `BoundHoldsUnlessHidden` says exactly when the slot bound is kept: unless the store is full, the key is new,
  and the empty key is the only least recently requested one.

## Findings

* Cleaning a live process whose `Distribution` fails dereferences a nil distribution (manager.go:464-466);
  the deferred shutdown then closes its instrumentation a second time (`PanicClosesTwice`). A run panics on a
  process if and only if the first such cleaning is that process's (`PanicIff`).
* Re-tracking a process under other groups leaves its old index entry behind (`StartTrackAgrees`).
* One cleaning of a right gauge of instrumented processes leaves it right if and only if the process is cleaned
  under the label it was loaded with (`InstrumentationCounters.CleanCounts`, `LabelDrift`); over a run, two
  opposite mistakes can cancel.
* The empty key hides a slot from eviction (`EvictsLeastRecent`, `BoundHoldsUnlessHidden`, `EmptyKeyBreaksBound`).
* A snapshot omits chunks stamped before the zero time (`SnapshotIsComplete`).
* A prefix rule of the empty text matches every path, by the fast path only (`FastPathRefinesSegments`).
* Splitting the trace processors drops repeated samplers and batchers (`SplitConserves`). In a compiled plan the
  sampler is never repeated, and the batcher only if two processor resources have its type and name, which are
  expected to be unique (`PlanSplitConserves`).
* A pipeline of a destination has its forward connector if and only if it was wired (`ForwardedIffRouted`). A
  configurer that fails after adding a pipeline, as Jaeger's does when it is asked for metrics or logs besides
  traces, leaves one in the compiled configuration that nothing feeds (`LeavesPipelineIff`, `OneJaegerIsUnfed`).
* The router of a signal loses what reaches it if and only if no data stream lists a wired destination of the
  signal, though there is one (`RouterDangles`).
* A dotted path with an empty part leaves created objects behind in the tree being edited (`FailureLeavesTree`);
  the configuration itself is not replaced then (`ApplyStepsToConfig`).

## Model

| member | source | states |
|---|---|---|
| InstrumentationConservation.StepConserves | instrumentation/manager.go:451-688 | every step keeps each loaded instrumentation owned by exactly one tracked process and never closed, or owned by none and closed exactly once |
| InstrumentationConservation.RunConserves | instrumentation/manager.go:229-325 | over every run of the event loop, instrumentations are conserved; a panic is the only exception |
| InstrumentationConservation.ShutdownClosesAll | instrumentation/manager.go:229-261 | after any run and its shutdown every loaded instrumentation has been closed exactly once, but that of the first live process cleaned without its distribution being resolved, which is closed twice |
| InstrumentationConservation.PanicIff | instrumentation/manager.go:451-485 | a run panics on a process if and only if the first cleaning of a live process whose distribution cannot be resolved is that of this process |
| InstrumentationConservation.PanicClosesTwice | instrumentation/manager.go:460-466 | an exit whose distribution cannot be resolved and the shutdown after it both close a live instrumentation |
| InstrumentationConservation.LiveIsNeverOverwritten | instrumentation/manager.go:487-508 | a record with a live instrumentation stays as it is until its own process is cleaned |
| InstrumentationConservation.OnlyItsOwnRecord | instrumentation/manager.go:519-653 | instrumenting one process leaves the records of all others as they are |
| InstrumentationConservation.CleanCounts | instrumentation/manager.go:451-485 | cleaning a process closes exactly its instrumentations, once each |
| InstrumentationReports.RunReports | instrumentation/manager.go:601-653 | over every run, what was reported of a process is what its record says: nothing or failures while it waits, init and load while it is live |
| InstrumentationReports.ShutdownReports | instrumentation/manager.go:229-261 | a shutdown reports exactly one exit for each process still tracked, and for no other |
| InstrumentationReports.NoInitWhileLive | instrumentation/manager.go:487-508 | between a successful load and the next init report of a process there is an exit report |
| InstrumentationReports.InitThenLoad | instrumentation/manager.go:607-639 | a successful init is followed by a load report of the same process before anything else is reported of it |
| InstrumentationReports.OneExitPerEpisode | instrumentation/manager.go:451-485 | between an exit report and the next report of the process its tracking ended, so an episode has one exit |
| InstrumentationReports.UntrackedAfterExit | instrumentation/manager.go:451-485 | a process leaves the table only after its exit was reported in the same episode |
| InstrumentationReports.FailedOncePerEpisode | instrumentation/manager.go:700-742 | the failed counter grows at most once in a tracking episode, whatever the number of retries |
| InstrumentationReports.TrackedUntilExit | instrumentation/manager.go:519-653 | a process once reported as initialized or as failing to stays tracked until its exit is reported |
| InstrumentationReports.ShutdownUnbroken | instrumentation/manager.go:229-261 | no run followed by a shutdown breaks the reporting protocol |
| InstrumentationCounters.CountedDown | instrumentation/manager.go:460-466 | the gauge stays right if and only if it is lowered under the label it was raised under |
| InstrumentationCounters.CleanCounts | instrumentation/manager.go:451-485 | cleaning keeps the gauge right if and only if the process resolves to the label it was loaded under |
| InstrumentationCounters.LabelDrift | instrumentation/manager.go:460-466 | a concrete run after which both labels of the gauge are wrong |
| InstrumentationCounters.GaugeCountsLive | instrumentation/manager.go:700-741 | when details resolve to one fixed distribution, nothing panics and the gauge of each label is the number of tracked live processes of it |
| InstrumentationIndexes.StartTrackAgrees | instrumentation/manager.go:712-724 | tracking keeps both indexes in agreement with the table if and only if the process is new or keeps its groups |
| InstrumentationIndexes.RunAgrees | instrumentation/manager.go:690-763 | with stable groups, in every reachable state a record is under a group exactly if it is the record of the table with that group, and no group is empty |
| InstrumentationIndexes.UninstrumentIsScan | instrumentation/manager.go:298-308 | un-instrumenting a group through the index removes exactly the processes a scan of the table finds, though it deletes from the map it walks |
| InstrumentationIndexes.UpdateReachesGroup | instrumentation/manager.go:765-783 | a configuration update reaches every instrumentation owned in its group exactly once, and no other |
| InstrumentationIndexes.RetryTouchesOnlyFailed | instrumentation/manager.go:327-392 | a retry keeps the tracked processes and their generic instrumentations, and changes only records without a live instrumentation that pass the filter and have a factory |
| InstrumentationIndexes.RetryAttempts | instrumentation/manager.go:353-392 | a retry reports no new attempt for a process it does not walk or whose distribution has no factory |
| InstrumentationOutcomes.AttemptEnds | instrumentation/manager.go:519-653 | how every attempt ends, for every record there is and every answer: whether it is made at all, the error, the record afterwards with its groups, generics and own instrumentation, and exactly what is reported and counted of the process |
| InstrumentationOutcomes.FirstAttempt | instrumentation/manager.go:519-653 | a new process is tracked if and only if its distribution has a factory or some generic factory loads, with as many generics as load; it is live if and only if its own factory loads; there is no error exactly when it is live, or tracked without a factory; a failing factory is counted once |
| InstrumentationOutcomes.OthersUntouched | instrumentation/manager.go:519-653 | an attempt changes the record of no other process and reports nothing of it |
| InstrumentationRequests.EachIsAttempted | instrumentation/manager.go:327-352 | whatever order a request is walked in, each of its processes gets exactly its own attempt, in the state it was in before the request, and no other process is concerned |
| InstrumentationRequests.InstrumentRequestIs | instrumentation/manager.go:327-352 | an instrument request attempts exactly the processes it names that are new, or have failed and still have a factory |
| InstrumentationRequests.RetryIs | instrumentation/manager.go:353-392 | a retry reports one more attempt of a process if and only if it has failed, passes the filter, and its distribution and groups resolve to something with a factory, whatever else the environment answers; it is live afterwards if and only if it was, or that attempt loads |
| InstrumentationManager.Manager.RunEventLoop | instrumentation/manager.go:229-325 | the events are handled in order, each in the state the ones before it lead to, all of them unless one panics; then the tables are emptied, every loaded instrumentation has been closed once but a stranded one, and the reporting protocol was kept |
| InstrumentationManager.Manager.HandleEvent | instrumentation/manager.go:262-325 | each event amounts to a sequence of model steps on the processes it concerns, for some order of every map it iterates |
| InstrumentationManager.Manager.TryInstrument | instrumentation/manager.go:519-653 | new tables, log and error are those of the model, for every answer of the environment |
| InstrumentationManager.Manager.UninstrumentGroup | instrumentation/manager.go:298-308 | cleans only members of the group, each once and all of them unless one panics, while the group shrinks under the loop |
| InstrumentationManager.Manager.StartTrackInstrumentation | instrumentation/manager.go:690-742 | new tables and counter change of tracking a process |
| InstrumentationManager.Manager.StopTrackInstrumentation | instrumentation/manager.go:744-763 | the record leaves all three tables, and an emptied group leaves its index |
| InstrumentationManager.Manager.CleanInstrumentation | instrumentation/manager.go:451-485 | closes, lowers the gauge, reports the exit and untracks, or panics on an unresolved distribution |
| InstrumentationManager.Manager.LoadGenericInstrumentations | instrumentation/manager.go:662-688 | returns exactly the generic instrumentations that load, in order |
| InstrumentationManager.Manager.RetryFailedInstrumentationsForDistros | instrumentation/manager.go:385-392 | a retry amounts to guarded attempts of exactly the failed records that pass the filter |
| InstrumentationManager.Manager.ApplyInstrumentationConfigurationForSDK | instrumentation/manager.go:765-783 | delivers the configuration to every instrumentation of every record of the group |
| InstrumentationManager.Manager.IsInstrumentedByDistro | instrumentation/manager.go:487-508 | a process counts as instrumented if it is live, or its distribution is unknown or has no factory |
| InstrumentationManager.Manager.InstrumentFromDetails | instrumentation/manager.go:327-352 | guarded attempts of exactly the requested processes |
| InstrumentationManager.Manager.FailedProcessDetailsByDistro | instrumentation/manager.go:353-384 | exactly the records without a live instrumentation that the filter wants |
| InstrumentationManager.Manager.Shutdown | instrumentation/manager.go:231-261 | closes and reports every tracked process once and empties the tables |
| InstrumentationManager.Manager.DeleteFromIndex | instrumentation/manager.go:744-763 | removes one process from its group, and the group when it becomes empty |
| CollectorConfig.PathsAscend | common/pipelinegen/config_builder.go:287-426 | ranks rise along every path of connectors |
| CrdProcessors.CrdProcessorToConfig | common/config/processor.go:17-69 | sorts the usable processors into the lists of their stages and collects the errors |
| CrdProcessors.StagedIs | common/config/processor.go:43-62 | a list holds exactly the keys of the usable processors of its stage, and all of them are defined |
| CrdProcessors.TracesArePartitioned | common/config/processor.go:43-53 | the two trace lists together are the usable trace processors, none lost or doubled |
| CrdProcessors.StagedKeepsOrder | common/config/processor.go:29-63 | no list is reordered |
| CrdProcessors.StagedIsKeysOf | common/config/processor.go:29-63 | the list of a stage is that of the keys of its usable resources, in their order |
| CrdProcessors.ErrorsAre | common/config/processor.go:29-37 | an error is kept for exactly the ids of resources that cannot be converted |
| CrdProcessors.DefinedAs | common/config/processor.go:38-41 | a usable resource is configured as it says, unless a later one has its key |
| TracesSplit.SplitTracesProcessorsForPipelines | common/pipelinegen/config_builder.go:360-380 | what stays in front, and the sampler before the batcher before what follows |
| TracesSplit.SplitConserves | common/pipelinegen/config_builder.go:360-399 | the split loses and doubles nothing if and only if sampler and batcher occur at most once each |
| TracesSplit.StayInKeepsOrder | common/pipelinegen/config_builder.go:366-376 | what stays in front of the split keeps its relative order |
| TracesSplit.OrderExportingPipelineProcessors | common/pipelinegen/config_builder.go:382-399 | one sampler, then one batcher, then all the others in order |
| DestinationWiring.HonouringKeeps | common/pipelinegen/config_builder.go:167-171 | a configurer that honours its contract keeps the configuration sound even if it fails |
| DestinationWiring.WireAllKeeps | common/pipelinegen/config_builder.go:160-207 | adding all destinations keeps everything defined and graded, and the forward connectors, routes and signals matching |
| DestinationWiring.RejectedIsNotWired | common/pipelinegen/config_builder.go:167-171 | a pipeline added by a configurer that then fails is left as it is, without its forward connector, by this destination and all later ones |
| DestinationWiring.WireAllForwards | common/pipelinegen/config_builder.go:174-182 | a pipeline has its forward connector only if a route leads into it |
| DestinationWiring.StatusIs | common/pipelinegen/config_builder.go:160-206 | with unique ids the status of a destination is what its configurer answered on the configuration left by the destinations before it |
| DestinationWiring.WiredPipelineIs | common/pipelinegen/config_builder.go:176-203 | a pipeline of a successful configurer stays as that left it, with its forward connector as one more receiver and the batcher as one more processor except for profiles |
| DataStreamPipelines.BuildDataStreamPipelines | common/pipelinegen/pipeline_builder.go:13-55 | the nested loops build the pipelines of all streams |
| DataStreamPipelines.EveryStreamHasItsPipelines | common/pipelinegen/pipeline_builder.go:19-52 | with distinct names a stream has its own pipeline for a signal if and only if it has something of the signal to export to |
| DataStreamPipelines.ExportsToItsDestinations | common/pipelinegen/pipeline_builder.go:33-46 | a stream exports to exactly the forward connectors of its destinations' pipelines of the signal |
| GatewaySoundness.CompiledIsClosed | common/pipelinegen/config_builder.go:99-285 | every receiver, processor, exporter and extension named in a compiled configuration is defined, for all inputs |
| GatewaySoundness.CompiledIsAcyclic | common/pipelinegen/config_builder.go:99-285 | no path along connectors visits a pipeline twice or has more than five pipelines |
| GatewaySoundness.StreamIsFed | common/pipelinegen/config_builder.go:318-358 | a stream has a pipeline for a signal only if the router is there and fed, also when traces are split or have no destination |
| GatewaySoundness.StreamFeedsItsDestinations | common/pipelinegen/config_builder.go:159-207 | from the pipeline of a stream exactly the pipelines of its configured destinations of the signal are fed |
| GatewaySoundness.RoutesAre | common/pipelinegen/config_builder.go:160-178 | routes are exactly the pipelines that successfully configured destinations returned |
| GatewaySoundness.AggregatedBeforeSampled | common/pipelinegen/config_builder.go:144-157 | every path from otlp to the tail sampler goes from traces/in to traces/exporting, and traces/in begins with groupbytrace and all early trace processors but the batcher |
| GatewaySoundness.SamplerComesFirst | common/pipelinegen/config_builder.go:318-399 | with tail sampling and a traces destination, traces/exporting begins with sampler, batcher and the late processors, in this order |
| GatewaySoundness.PlanSplitConserves | common/pipelinegen/config_builder.go:150-157 | splitting a compiled plan loses nothing if and only if at most one early trace resource is the generic batcher |
| GatewaySoundness.AdvertisedSignalsAreReceived | common/pipelinegen/config_builder.go:209-229 | the advertised signals are those with a wired destination, and traces under insights, and exactly those have a root that receives from otlp |
| GatewayEnds.RouterDangles | common/pipelinegen/config_builder.go:408-426 | the router of a signal lacks one of its two ends if and only if the signal has a router and no stream lists a wired destination of it |
| GatewayEnds.RouterExported | common/pipelinegen/config_builder.go:287-358 | something exports to the router of a signal if and only if the signal is enabled and, when traces are aggregated, has a destination |
| GatewayEnds.RouterReceived | common/pipelinegen/pipeline_builder.go:19-52 | something receives from the router of a signal if and only if some stream lists a destination with a pipeline of it |
| GatewayEnds.ForwardHasBothEnds | common/pipelinegen/config_builder.go:174-204 | the forward connector of a wired pipeline always feeds it, and is fed if and only if some stream lists a destination the pipeline was wired for |
| GatewayEnds.UnfedIff | common/pipelinegen/config_builder.go:160-246 | before the callback adds its own, a pipeline lacks receivers if and only if it is a destination pipeline that was given none and was not wired |
| GatewayEnds.RootsExport | autoscaler/controllers/clustercollector/insights_exporter.go:29-61 | with the callback of the cluster gateway every root has something to export to, also when traces have no destination |
| GatewayCallback.CallbackIsBenign | autoscaler/controllers/clustercollector/configmap.go:233-262 | the whole callback honours the contract of callbacks, for all of its options |
| GatewayCallback.CallbackIsReliable | autoscaler/controllers/clustercollector/configmap.go:230-264 | with that callback the theorems about compiled configurations hold whenever configurers honour their contract and names do not clash |
| GatewayCallback.RenameIsBenign | autoscaler/controllers/clustercollector/obimetrics.go:41-66 | inserting a processor second in the metrics root honours the contract |
| GatewayCallback.TapIsBenign | autoscaler/controllers/clustercollector/insights_exporter.go:29-61 | appending an exporter to the traces root honours the contract |
| GatewayCallback.ProfilingIsBenign | autoscaler/controllers/clustercollector/profiling_pipeline.go:10-39 | adding a pipeline that receives from otlp honours the contract |
| GatewayCallback.SelfTelemetryIsBenign | autoscaler/controllers/clustercollector/configmap.go:42-152 | adding the own telemetry pipeline and counting the traffic of the destinations honours the contract |
| GatewayCallback.OwnMetricsIsBenign | autoscaler/controllers/clustercollector/ownmetrics.go:64-104 | sending the metrics of the components to a store and to metrics destinations honours the contract |
| GatewaySoundness.RejectedPipelineStays | common/config/jaeger.go:61-79 | a pipeline added by a configurer that then fails stays with the ends it was given and gets no forward connector |
| GatewaySoundness.ForwardedIffRouted | common/pipelinegen/config_builder.go:160-207 | in a compiled configuration a destination pipeline is fed by its forward connector if and only if a successful configurer returned it |
| Jaeger.ModifyConfigHonours | common/config/jaeger.go:31-82 | whatever its settings and outcome, the configurer honours the contract of configurers |
| Jaeger.SucceedsIff | common/config/jaeger.go:31-82 | it succeeds, with one pipeline, if and only if its address is valid and it is asked for traces but not for metrics or logs |
| Jaeger.LeavesPipelineIff | common/config/jaeger.go:61-79 | it leaves a pipeline behind if and only if the address is valid and traces are asked for together with metrics or logs |
| Jaeger.OneJaegerIsUnfed | common/config/jaeger.go:61-79 | an instance: one such destination is compiled into a configuration whose pipeline has no receiver |
| GatewaySoundness.FinishedKeeps | common/pipelinegen/config_builder.go:263-282 | service graph, correlations, cluster metrics and extension keep the configuration sound and only extend what is there |
| GatewayBlueprint.RootIs | common/pipelinegen/config_builder.go:300-310 | the root of a wanted signal other than traces goes from otlp through the version and exactly the usable resources for that signal, in order, to the router of the signal |
| GatewayBlueprint.TracesRootIs | common/pipelinegen/config_builder.go:291-298 | without aggregation the traces root runs early resources, late resources and the trace state; with it, the root runs groupbytrace and the early resources but the batcher, and traces/exporting, there exactly with a destination, runs sampler, batcher, late resources and trace state |
| GatewayBlueprint.CompiledRootRuns | common/pipelinegen/config_builder.go:300-310 | whatever the callback inserts, a compiled root still runs the version and its resources in order |
| GatewayBlueprint.PlainRootIs | common/pipelinegen/config_builder.go:408-426 | without a callback a compiled root runs nothing else |
| GatewayBlueprint.FinishedPipelineIs | common/pipelinegen/config_builder.go:401-406 | after the callback, the metrics root receives the cluster metrics, exactly one traces pipeline feeds the service graph, traces/exporting if it is there, and the traces root feeds the correlations, each exactly under its options; nothing else about a pipeline changes |
| GatewayBlueprint.SinksAre | common/pipelinegen/config_builder.go:428-579 | the pipelines of the service graph and the correlations, and the scrape job, are there exactly under their options, with and without insights |
| GatewayBlueprint.ExtensionsAre | common/pipelinegen/config_builder.go:273-281 | leader election and the configuration extension are added to the extensions exactly under their options, in this order |
| GatewayBlueprint.ExtendedPipelineIs | autoscaler/controllers/clustercollector/configmap.go:233-262 | the callback renames metrics second in the metrics root, counts traffic last in the destination pipelines, taps the traces root under insights, and changes nothing else about a pipeline |
| GatewayBlueprint.OwnPipelinesAre | autoscaler/controllers/clustercollector/configmap.go:42-152 | the pipeline of the collector telemetry, and that of profiles exactly in the enterprise tier with profiling on |
| GatewayBlueprint.OwnMetricsGo | autoscaler/controllers/clustercollector/ownmetrics.go:64-104 | the metrics of the components go to the store if that is asked for, and to exactly what metrics pipelines of destinations export to if that is |
| GatewayBlueprint.OwnMetricsGoSomewhere | autoscaler/controllers/clustercollector/ownmetrics.go:64-104 | there is no such pipeline that exports nowhere |
| GatewayBlueprint.AuthIff | autoscaler/controllers/clustercollector/enterpriseauth.go:14-23 | the enterprise tier adds the authorization extension, once, and no other tier does |
| GatewayBlueprint.GatewayPipelineIs | autoscaler/controllers/clustercollector/configmap.go:225-264 | what becomes of any pipeline that is there before the callback of the cluster gateway, receivers, processors and exporters in order |
| GatewayBlueprint.GatewayRootIs | autoscaler/controllers/clustercollector/configmap.go:225-264 | the metrics, logs and profiles roots of the cluster gateway, whole: receivers, processors in order, exporters |
| GatewayBlueprint.GatewayTracesAre | autoscaler/controllers/clustercollector/configmap.go:225-264 | the traces pipelines of the cluster gateway, whole, split or not, with every tap on them |
| GatewayBlueprint.GatewayDestinationIs | common/pipelinegen/config_builder.go:174-203 | the pipeline of a destination in the cluster gateway, whole: as its configurer left it, then the forward connector, the batcher except for profiles, and the traffic counter |
| GatewayBlueprint.GatewayStreamIs | common/pipelinegen/pipeline_builder.go:13-55 | the pipeline of a data stream in the cluster gateway, whole: from the router of the signal, batched except for profiles, to its destinations |
| GatewayBlueprint.DestinationsReported | common/pipelinegen/config_builder.go:160-206 | exactly the ids of the destinations have a status |
| GatewayBlueprint.DestinationStatusIs | common/pipelinegen/config_builder.go:160-206 | with unique ids a destination has no error if and only if its kind has a configurer and that succeeds; otherwise its error is that of the configurer, or that there is none |
| GatewayBlueprint.ProcessorsReported | common/pipelinegen/config_builder.go:133-138 | an error is reported of exactly the processor resources that cannot be converted, and with unique ids it is theirs |
| GatewayBlueprint.SignalsAreOrdered | common/pipelinegen/config_builder.go:215-231 | signals are advertised in the order traces, metrics, logs, profiles |
| GatewayBlueprint.ResourceIsDefined | common/pipelinegen/config_builder.go:139-141 | a usable processor resource is defined with its own configuration before any destination is added |
| GatewayBuilder.Gateway.AddDestinations | common/pipelinegen/config_builder.go:159-207 | the loop over destinations and their pipelines wires what the function says, with its flags and statuses |
| GatewayBuilder.Gateway.InsertRootPipelines | common/pipelinegen/config_builder.go:287-311 | inserts the root pipelines and connectors of the plan and nothing else |
| GatewayBuilder.Gateway.InsertServiceGraphPipeline | common/pipelinegen/config_builder.go:428-536 | inserts the service graph, or only its exporter when there is nothing to scrape |
| GatewayBuilder.CalculateGatewayConfig | common/pipelinegen/config_builder.go:99-285 | the stages in place give the configuration, statuses and signals of the calculation |
| GatewayBuilder.Gateway.ApplySplitTracesRootPipelines | common/pipelinegen/config_builder.go:318-358 | adds the two halves of the traces root, or a single one without a destination |
| GatewayBuilder.Gateway.ApplyRootPipelineForSignal | common/pipelinegen/config_builder.go:408-426 | the root of the signal goes from otlp to the router of that signal alone, and the roots and routers of other signals are as before |
| GatewayBuilder.Gateway.EnsureGroupByTraceProcessor | common/pipelinegen/config_builder.go:746-767 | defines groupbytrace and puts it first unless it is listed |
| GatewayBuilder.Gateway.InsertTraceCorrelationsServiceIOPipeline | common/pipelinegen/config_builder.go:538-579 | adds the correlations sink and taps the traces root once |
| GatewayBuilder.Gateway.InsertClusterMetricsResources | common/pipelinegen/config_builder.go:700-724 | adds leader election, the cluster receiver, and the receiver to the metrics root |
| GatewayBuilder.Gateway.ScrapeServiceGraph | common/pipelinegen/config_builder.go:653-698 | if the collector scrapes its own metrics exactly one job is added to that scraper, and no receiver is added or otherwise changed |
| MergeConfigs.MergeIsDisjointUnion | common/config/config.go:81-157 | configurations merge if and only if they are pairwise compatible, and then into exactly their union |
| MergeConfigs.DomainsMergeIff | common/config/config.go:81-125 | domains merge if and only if any two have no key, pipeline or differing metrics level in common |
| MergeConfigs.MergeKeepsOrder | common/config/config.go:127-207 | extensions, readers and attributes are concatenated in domain order and the last logs level set counts |
| MergeConfigs.MergeIgnoresIteration | common/config/config.go:84-90 | the order of the domains does not depend on how the map is iterated |
| MergeConfigs.MergeListIs | common/config/config.go:209-220 | maps merge if and only if they are pairwise disjoint, and then into their union |
| MergeConfigs.MergeConfigs | common/config/config.go:81-125 | merges the domains in the ascending order of their names, or fails with something that two of the domains have in common |
| MergeConfigs.MergeInOrder | common/config/config.go:91-124 | the loop over the domains merges them all or fails with what two of them have in common |
| MergeConfigs.MergeMaps | common/config/config.go:132-146 | the union of two maps, or a key that is in both |
| MergeConfigs.MergeLevelsIs | common/config/config.go:148-157 | the levels merge if and only if all that are set are equal, and then into that one |
| ProfileBuffer.OnlineIsOffline | common/profilecache/buffer.go:41-88 | after any additions at a fixed positive budget, the live chunks are the longest suffix of the accepted chunks that fits |
| ProfileBuffer.LongestFitUnique | common/profilecache/buffer.go:68-88 | there is one longest suffix that fits, so the live chunks are determined |
| ProfileBuffer.AcceptedStays | common/profilecache/buffer.go:41-57 | a chunk that is not refused is never evicted by its own arrival |
| ProfileBuffer.NoBudgetKeepsAll | common/profilecache/buffer.go:68-88 | without a positive budget only empty chunks are dropped |
| ProfileBuffer.SnapshotIsComplete | common/profilecache/buffer.go:90-113 | a snapshot returns every live chunk, in order, if and only if none is stamped before the asked time |
| ProfileBuffer.BoundedBuffer.AddAt | common/profilecache/buffer.go:41-57 | refuses exactly the empty and the oversized chunks, and otherwise appends and trims; bytes are summed exactly and added equals evicted plus cleared plus live |
| ProfileBuffer.BoundedBuffer.TrimLocked | common/profilecache/buffer.go:68-88 | drops the oldest chunks until the rest fits, zeroes what it dropped, and after evicting leaves a capacity of at most 16 or twice what is live |
| ProfileBuffer.BoundedBuffer.Resize | common/profilecache/buffer.go:60-65 | trims to the new budget and keeps the counts in balance |
| ProfileBuffer.BoundedBuffer.Clear | common/profilecache/buffer.go:115-120 | empties the buffer and counts what it cleared |
| ProfileEviction.EvictsLeastRecent | common/profilecache/store.go:79-94 | whatever the iteration order, a least recently requested slot is evicted if and only if there is a slot and the empty key does not name the only least recent one |
| ProfileStore.EvictDownKeeps | common/profilecache/store.go:180-184 | the eviction loop ends at the limit and drops nothing requested after a slot it keeps |
| ProfileStore.ReconfiguredKeeps | common/profilecache/store.go:165-190 | a reconfiguration leaves every slot with the new byte budget; with no empty key, exactly as many slots as the new limit allows, none dropped that was requested after one kept |
| ProfileStore.OpenSlotKeeps | common/profilecache/store.go:107-118 | opening a slot keeps the store sound, its buffers on budget and its slots within the limit |
| ProfileStore.OpenSlotFrame | common/profilecache/store.go:107-118 | other slots stay as they are, except for a least recent one at the limit |
| ProfileStore.EmptyKeyBreaksBound | common/profilecache/store.go:79-94 | an instance: a full store whose only slot has the empty key grows beyond its limit |
| ProfileStore.BoundHoldsUnlessHidden | common/profilecache/store.go:79-118 | whatever order the slots are scanned in, opening a slot keeps a store within its limit if and only if the key is open, or there is room, or the empty key is not the only least recent one |
| ProfileStore.MemoryBound | common/profilecache/store.go:13-15 | all slots together hold at most slots times bytes per slot |
| ProfileStore.Store.EvictOldestSlotLocked | common/profilecache/store.go:79-94 | evicts what the scan finds, and reports whether it evicted |
| ProfileStore.Store.EnsureSlot | common/profilecache/store.go:107-118 | the slot is open and just requested; a new one has a new, empty buffer of the current budget, at the limit each slot that made room is counted, and all else is as before |
| ProfileStore.Store.RemoveSlot | common/profilecache/store.go:120-124 | removes this slot and no other |
| ProfileStore.Store.ClearAllSlots | common/profilecache/store.go:126-130 | removes every slot |
| ProfileStore.Store.Reconfigure | common/profilecache/store.go:168-190 | sets the positive limits and keeps the others, counts every slot evicted, and leaves in each buffer of a slot the longest suffix that fits the new budget |
| ProfileStore.Store.SweepNow | common/profilecache/store.go:277-286 | a slot stays if and only if it was requested at most the time to live ago; what stays, the buffers, limits and counters are as before |
| ProfileStore.Store.GetMemoryStats | common/profilecache/store.go:96-163 | sums every buffer once and never reports more than the budget of a bounded store |
| ProfileStore.Store.Snapshot | common/profilecache/store.go:204-223 | reads the slot's chunks; a read for the user counts as a request, another changes nothing |
| ProfileInterleaving.StepKeeps | common/profilecache/store.go:79-202 | every critical section of every goroutine keeps slots bounded, buffers owned and on budget, and gaps and readers within bounds |
| ProfileInterleaving.StepDoes | common/profilecache/store.go:79-202 | every step opens, empties, refreshes, appends, resizes or adds up exactly what the method it belongs to promises |
| ProfileInterleaving.SlotGoesIff | common/profilecache/store.go:120-130 | outside openings and reconfigurations a slot goes if and only if it is removed or its last request is before the cutoff of a sweep |
| ProfileInterleaving.SlotComesIff | common/profilecache/store.go:107-118 | a slot comes only by being opened |
| ProfileInterleaving.MemoryIsBounded | common/profilecache/store.go:107-202 | with no empty key, under every interleaving there are at most maxSlots slots and, outside a reconfiguration, every buffer has the current budget and the total is within the limits |
| ProfileInterleaving.StatsAreWithinBudget | common/profilecache/store.go:153-163 | statistics never exceed the budget though appends go on while they are added up |
| ProfileInterleaving.LateAppend | common/profilecache/store.go:194-202 | an append in the unlocked gap takes effect as if at once if the key still names the buffer, and changes no slot otherwise |
| ProfileInterleaving.DetachedForGood | common/profilecache/store.go:194-202 | a buffer that has left the store never comes back under any key |
| ProfileStore.Store.ClearSlotBuffer | common/profilecache/store.go:133-145 | empties the buffer of an open slot and counts as a request; other slots and buffers are as before |
| ProfileStore.Store.AddProfileData | common/profilecache/store.go:194-202 | appends to the buffer of an open slot within its budget, and drops data for any other source; other buffers are as before |
| ProfileStore.Store.constructor | common/profilecache/store.go:57-77 | limits that are not positive fall back to the defaults |
| ProfileBuffer.BoundedBuffer.SnapshotSince | common/profilecache/buffer.go:96-113 | returns the bytes of the live chunks of that age, in order |
| ProfileBuffer.BoundedBuffer.Size | common/profilecache/buffer.go:122-126 | the exact sum of the live bytes, within a positive budget |
| Text.JoinSplit | common/urltemplate/path.go:7-16 | joining the parts of a string gives the string back |
| Text.SplitJoin | common/urltemplate/rule.go:46-51 | splitting joined parts gives the parts back when none contains the separator |
| Text.TrimSpaceOnlyTrims | common/urltemplate/rule.go:35-40 | trimming takes away white space at the two ends, and nothing else |
| Text.UnderIsPrefixOfParts | common/urltemplate/match.go:49-60 | continuing a string after a separator is exactly continuing the list of its parts |
| UrlTemplate.ParseUserInputRuleString | common/urltemplate/rule.go:45-87 | fills one rule segment for each segment of the text, and is all static exactly if every segment is a literal |
| UrlTemplate.WhatRulesMatch | common/urltemplate/match.go:8-72 | a parsed rule matches a path exactly if the segments fit one by one, all or the first ones, or if it is a prefix rule of the empty text |
| UrlTemplate.FastPathRefinesSegments | common/urltemplate/match.go:49-60 | for static rules the string comparison agrees with matching by segments if and only if not a prefix rule of the empty text meets a non-empty first segment |
| UrlTemplate.SplitPathLosesNothing | common/urltemplate/path.go:7-16 | the segments of a path and whether it begins with a slash give the path back |
| UrlTemplate.EntryPointsAgree | common/urltemplate/match.go:8-32 | matching a path and matching its split segments agree for every rule and path |
| UrlTemplate.PrefixMatchesSomeCut | common/urltemplate/match.go:34-47 | a prefix rule matches exactly if the exact rule matches the path cut off somewhere |
| UrlTemplate.PrefixMatchesWhatFollows | common/urltemplate/match.go:34-60 | a path matched by a prefix rule still matches when it goes on |
| UrlTemplate.ExactLiteralMatchesItself | common/urltemplate/match.go:49-52 | an exact static rule matches only its own text, up to one leading slash |
| UrlTemplate.ParsingIsCanonical | common/urltemplate/rule.go:35-87 | every text parses to a rule in canonical form |
| UrlTemplate.ParseInvertsRender | common/urltemplate/rule.go:45-87 | writing a rule out and parsing it gives the rule back for exactly the canonical rules |
| UrlTemplate.RereadRuleMatchesTheSame | common/urltemplate/rule.go:45-87 | a rule matches the same paths after being written out and parsed again |
| UrlTemplate.ScanChecksAll | common/urltemplate/match.go:62-72 | the scan accepts exactly if every segment fits |
| UrlTemplate.FillSegments | common/urltemplate/rule.go:53-79 | the loop fills each rule segment and notices the first that is not a literal |
| ConfigPath.SucceedsIff | recommendations/apply.go:92-123 | an edit succeeds if and only if no part is empty and no proper prefix of the path reads something that is not an object |
| ConfigPath.FailsAt | recommendations/apply.go:92-123 | which error an edit ends with, and at which part: the first that is empty, or whose entry is a leaf though the path goes on |
| ConfigPath.ReadBack | recommendations/apply.go:92-123 | after an edit the path reads the value, and extensions of it read inside the value |
| ConfigPath.OthersReadAsBefore | recommendations/apply.go:92-123 | a path neither a prefix nor an extension of the edited one reads as before, whatever becomes of the edit |
| ConfigPath.PrefixesBecomeObjects | recommendations/apply.go:108-120 | proper prefixes of an edited path read objects |
| ConfigPath.EditsCommute | recommendations/apply.go:92-123 | edits at unrelated paths commute |
| ConfigPath.SuccessIsIndependent | recommendations/apply.go:92-123 | an edit at an unrelated path does not decide whether this one succeeds |
| ConfigPath.LastEditCounts | recommendations/apply.go:103-106 | of two edits at one path the second counts |
| ConfigPath.FailureLeavesTree | recommendations/apply.go:92-123 | a failed edit changes the tree if and only if an empty part follows a prefix that had to be created |
| ConfigPath.Document.SetConfigPath | recommendations/apply.go:92-123 | the walk with a moving current object makes the tree and the error of the recursive edit |
| ConfigPath.StepsReadBack | recommendations/apply.go:31-35 | after all steps each path reads what the last step related to it wrote |
| ConfigPath.SwapSteps | recommendations/apply.go:31-35 | neighbouring steps at unrelated paths may be swapped |
| ConfigPath.ApplyStepsToConfig | recommendations/apply.go:13-48 | the configuration is replaced when every step and conversion succeeds, and is as before otherwise |
| ConfigPath.EditTree | recommendations/apply.go:31-35 | the loop over the steps makes the tree of all edits or stops at the first that fails |
| Distros.HaltsIffNoLoop | distros/oteldistributions.go:97-113 | the walk halts if and only if it never comes back to a name without having ended |
| Distros.EndsWithin | distros/oteldistributions.go:97-113 | a walk without a loop ends after at most as many fallbacks as there are distributions |
| Distros.AcyclicHalts | distros/oteldistributions.go:97-113 | an acyclic chain of fallbacks lets the walk halt for every version |
| Distros.WhatIsResolved | distros/oteldistributions.go:82-114 | along any chain of fallbacks the answer is the first name that accepts the version, else the last name of the chain, else the start when the chain leads to an unknown name |
| Distros.ConstraintDecides | distros/oteldistributions.go:97-113 | a distribution with a fallback is passed over if and only if it has no first constraint or the version does not meet it |
| Distros.ResolvingIsIdempotent | distros/oteldistributions.go:87-114 | resolving the answer again gives the answer |
| Distros.ResolveDistroNameForVersion | distros/oteldistributions.go:87-114 | the loop returns that answer, and the start for an empty or unreadable version |
| Distros.UnionIs | distros/oteldistributions.go:135-140 | the union has the names of all sources and takes each from the last source that has it |
| Distros.NewProvider | distros/oteldistributions.go:130-156 | succeeds if and only if there is a source and every default is in one, and then provides the union |
| Distros.ChainOf | distros/oteldistributions.go:97-113 | every walk that ends is along such a chain |

## Left out

- The nil-receiver and goroutine details of the instrumentation manager: eBPF maps, the detector, logging, OpenTelemetry meters and the asynchronous `Run` of an instrumentation.
- The timeout of the manager's shutdown (instrumentation/manager.go:232-239): only an uninterrupted shutdown is modelled.
- Individual destination configurers: only the contract they are relied on for; URL parsing belongs to a library.
- The settings of components (durations, dimensions, endpoints, attributes): a component is only a name here, except for the scrape jobs of the collector's own metrics.
- `config.LoadConfigers` failing and the check for the otlp receiver of the basic configuration, which cannot fail.
- `GetGatewayConfig`: sorting extensions and marshalling to YAML.
- `ConfiguredSignals` of a data stream's destination, which the code does not read.
- GatewayCallback.CallbackIsBenign: the callback is modelled on values, stage by stage, instead of in place; its checks for nil sections, which cannot be nil here, and the log level it sets are left out.
- InstrumentationManager.Manager.TryInstrument: a `Distribution` that answers with neither a distribution nor an error is treated as one that fails; instrumentation/manager.go:544 would dereference it and panic.
- YAML and semantic-version parsing, reading distributions from files, and templates of environment variables.
- ProfileStore.Store: buffers are named by reference into a map instead of being objects, so the store does not mutate `BoundedBuffer` objects; `BoundedBuffer` is proved to implement the same functions on its own array.
- ProfileStore.Store.Reconfigure: the property that no kept slot is older than a dropped one is stated on the store's state by `ReconfiguredKeeps`, for stores without the empty key.
- ProfileInterleaving.StepKeeps: critical sections are atomic; data races within the Go memory model are not modelled, and the time to live that a sweep reads without the lock is an arbitrary cutoff.
- ProfileBuffer.BoundedBuffer.TrimLocked: the bound on the capacity concerns the window from its start; the part of the array before it, which only the garbage collector can see, is not bounded.
- ConfigPath.Document.SetConfigPath: the walk names the current object by its path in one tree value, so sharing of one map between two places of a tree, or between a step and the tree, is not modelled.
- MergeConfigs.MergeConfigs: which of several duplicate keys an error names depends on map iteration and is left open.
- UrlTemplate.ParseUserInputRuleString: strings are sequences of Unicode characters instead of UTF-8 bytes.
- Integers are unbounded; times are integers with the zero time at 0.
- Read-only accessors (`IsActive`, `ActiveSlots`, `EvictedSlots`, `SnapshotAllSince`, `ConfigSteps`, `ActionSteps`), which would only add easy members.
