/**
 Sorting processor resources into the pipelines they belong to (`common/config/processor.go`). Trace
 processors with an order hint of 10 or more run only after span metrics have been computed.
 */
module CrdProcessors {
  import opened Wrappers
  import opened CollectorConfig

  /** `config` is Err when the resource cannot be converted, and Ok(None) when it converts to nothing. */
  datatype Processor = Processor(
    kind: string, id: string, signals: set<Signal>, config: Result<Option<Component>, string>, orderHint: int)

  const POST_SPAN_METRICS_HINT := 10

  function Key(p: Processor): Name { p.kind + "/" + p.id }

  predicate Usable(p: Processor) { p.config.Ok? && p.config.value.Some? }

  datatype Stage = PreSpanMetrics | PostSpanMetrics | Other(signal: Signal)

  /** The lists a usable processor goes to. */
  predicate BelongsTo(p: Processor, stage: Stage) {
    match stage
    case PreSpanMetrics => Traces in p.signals && p.orderHint < POST_SPAN_METRICS_HINT
    case PostSpanMetrics => Traces in p.signals && p.orderHint >= POST_SPAN_METRICS_HINT
    case Other(signal) => signal in p.signals
  }

  /** The keys of the usable processors of a stage, in order. */
  function Staged(processors: seq<Processor>, stage: Stage): seq<Name> {
    if processors == [] then []
    else
      var last := processors[|processors| - 1];
      Staged(processors[..|processors| - 1], stage) + if Usable(last) && BelongsTo(last, stage) then [Key(last)] else []
  }

  /** What the usable processors are configured with; of those with one key, the last. */
  function Defined(processors: seq<Processor>): Components {
    if processors == [] then map[]
    else
      var front, last := Defined(processors[..|processors| - 1]), processors[|processors| - 1];
      if Usable(last) then front[Key(last) := last.config.value.value] else front
  }

  /** The errors of the resources that cannot be converted. */
  function Errors(processors: seq<Processor>): map<string, string> {
    if processors == [] then map[]
    else
      var front, last := Errors(processors[..|processors| - 1]), processors[|processors| - 1];
      if last.config.Err? then front[last.id := last.config.error] else front
  }

  datatype CrdProcessorResults = CrdProcessorResults(
    processors: Components,
    tracesProcessors: seq<Name>,
    tracesProcessorsPostSpanMetrics: seq<Name>,
    metricsProcessors: seq<Name>,
    logsProcessors: seq<Name>,
    profilesProcessors: seq<Name>,
    errs: map<string, string>)

  function Sorted(processors: seq<Processor>): CrdProcessorResults {
    CrdProcessorResults(
      Defined(processors), Staged(processors, PreSpanMetrics), Staged(processors, PostSpanMetrics),
      Staged(processors, Other(Metrics)), Staged(processors, Other(Logs)), Staged(processors, Other(Profiles)),
      Errors(processors))
  }

  method CrdProcessorToConfig(processors: seq<Processor>) returns (results: CrdProcessorResults)
    ensures results == Sorted(processors)
  {
    results := CrdProcessorResults(map[], [], [], [], [], [], map[]);
    for i := 0 to |processors|
      invariant results == Sorted(processors[..i])
    {
      var processor := processors[i];
      var key := Key(processor);
      assert processors[..i + 1][..i] == processors[..i];
      if processor.config.Err? {
        results := results.(errs := results.errs[processor.id := processor.config.error]);
        continue;
      }
      if key == "" || processor.config.value.None? {
        continue;
      }
      results := results.(processors := results.processors[key := processor.config.value.value]);
      if Traces in processor.signals {
        if processor.orderHint < POST_SPAN_METRICS_HINT {
          results := results.(tracesProcessors := results.tracesProcessors + [key]);
        } else {
          results := results.(tracesProcessorsPostSpanMetrics := results.tracesProcessorsPostSpanMetrics + [key]);
        }
      }
      if Metrics in processor.signals {
        results := results.(metricsProcessors := results.metricsProcessors + [key]);
      }
      if Logs in processor.signals {
        results := results.(logsProcessors := results.logsProcessors + [key]);
      }
      if Profiles in processor.signals {
        results := results.(profilesProcessors := results.profilesProcessors + [key]);
      }
    }
    assert processors[..|processors|] == processors;
  }

  /** Exactly the keys of the usable processors of a stage are listed, and all of them are defined. */
  lemma {:induction false} StagedIs(processors: seq<Processor>, stage: Stage, key: Name)
    ensures key in Staged(processors, stage) <==>
              exists k :: 0 <= k < |processors| && Usable(processors[k]) && BelongsTo(processors[k], stage) &&
                Key(processors[k]) == key
    ensures key in Staged(processors, stage) ==> key in Defined(processors) && '/' in key
  {
    if processors != [] {
      var front, last := processors[..|processors| - 1], processors[|processors| - 1];
      StagedIs(front, stage, key);
      assert last == processors[|processors| - 1];
      if k :| 0 <= k < |processors| && Usable(processors[k]) && BelongsTo(processors[k], stage) &&
              Key(processors[k]) == key
      {
        assert k < |front| ==> front[k] == processors[k];
      }
    }
  }

  /**
   Every usable trace processor is in exactly one of the two trace lists, so the two together are as
   many as the usable trace processors.
   */
  lemma {:induction false} TracesArePartitioned(processors: seq<Processor>)
    ensures multiset(Staged(processors, PreSpanMetrics)) + multiset(Staged(processors, PostSpanMetrics)) ==
              multiset(Staged(processors, Other(Traces)))
  {
    if processors != [] {
      TracesArePartitioned(processors[..|processors| - 1]);
    }
  }

  function Keys(processors: seq<Processor>): seq<Name> {
    if processors == [] then [] else Keys(processors[..|processors| - 1]) + [Key(processors[|processors| - 1])]
  }

  /** No list is reordered: keys stand in the order of their resources. */
  lemma {:induction false} StagedKeepsOrder(processors: seq<Processor>, stage: Stage) returns (from: seq<nat>)
    ensures Embeds(from, Staged(processors, stage), Keys(processors))
  {
    from := [];
    if processors != [] {
      var front, last := processors[..|processors| - 1], processors[|processors| - 1];
      from := StagedKeepsOrder(front, stage);
      EmbedsMore(from, Staged(front, stage), Keys(front), Key(last));
      assert Staged(front, stage) + [] == Staged(front, stage);
      if Usable(last) && BelongsTo(last, stage) {
        from := from + [|Keys(front)|];
      }
    }
  }

  /** The keys of the wanted resources, in order. */
  function KeysOf(processors: seq<Processor>, want: Processor -> bool): seq<Name> {
    if processors == [] then []
    else if want(processors[0]) then [Key(processors[0])] + KeysOf(processors[1..], want)
    else KeysOf(processors[1..], want)
  }

  lemma {:induction false} KeysOfMore(front: seq<Processor>, last: Processor, want: Processor -> bool)
    ensures KeysOf(front + [last], want) == KeysOf(front, want) + if want(last) then [Key(last)] else []
  {
    if front == [] {
      assert front + [last] == [last] && [last][1..] == [];
    } else {
      assert (front + [last])[1..] == front[1..] + [last];
      KeysOfMore(front[1..], last, want);
    }
  }

  /** The list of a stage is that of the wanted resources, if these are the usable ones of the stage. */
  lemma {:induction false} StagedIsKeysOf(processors: seq<Processor>, stage: Stage, want: Processor -> bool)
    requires forall p :: p in processors ==> (want(p) <==> Usable(p) && BelongsTo(p, stage))
    ensures Staged(processors, stage) == KeysOf(processors, want)
  {
    if processors != [] {
      var front, last := processors[..|processors| - 1], processors[|processors| - 1];
      assert processors == front + [last] && last in processors;
      StagedIsKeysOf(front, stage, want);
      KeysOfMore(front, last, want);
    }
  }

  /** An error is kept for exactly the ids of resources that cannot be converted. */
  lemma {:induction false} ErrorsAre(processors: seq<Processor>, id: string)
    ensures id in Errors(processors) <==>
              exists k :: 0 <= k < |processors| && processors[k].id == id && processors[k].config.Err?
  {
    if processors != [] {
      var front, last := processors[..|processors| - 1], processors[|processors| - 1];
      ErrorsAre(front, id);
      assert forall k :: 0 <= k < |front| ==> front[k] == processors[k];
      assert processors[|front|] == last;
    }
  }

  /** It is that of the resource, if ids are unique. */
  lemma {:induction false} ErrorOf(processors: seq<Processor>, k: nat)
    requires k < |processors| && processors[k].config.Err?
    requires forall j :: k < j < |processors| ==> processors[j].id != processors[k].id
    ensures processors[k].id in Errors(processors)
    ensures Errors(processors)[processors[k].id] == processors[k].config.error
  {
    var front := processors[..|processors| - 1];
    if k < |front| {
      assert forall j :: 0 <= j < |front| ==> front[j] == processors[j];
      ErrorOf(front, k);
    }
  }

  /** A usable resource is configured as it says, unless a later one has its key. */
  lemma {:induction false} DefinedAs(processors: seq<Processor>, k: nat)
    requires k < |processors| && Usable(processors[k])
    requires forall j :: k < j < |processors| && Usable(processors[j]) ==> Key(processors[j]) != Key(processors[k])
    ensures Key(processors[k]) in Defined(processors)
    ensures Defined(processors)[Key(processors[k])] == processors[k].config.value.value
  {
    var front, last := processors[..|processors| - 1], processors[|processors| - 1];
    assert processors == front + [last];
    if k < |front| {
      assert front[k] == processors[k];
      assert forall j :: 0 <= j < |front| ==> front[j] == processors[j];
      DefinedAs(front, k);
    }
  }
}
