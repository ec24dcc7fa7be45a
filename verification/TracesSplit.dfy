/**
 Splitting the trace processors between traces/in, which sees whole traces, and traces/exporting, which
 samples and batches them (`common/pipelinegen/config_builder.go`, splitTracesProcessorsForPipelines).
 */
module TracesSplit {
  import opened Wrappers
  import opened CollectorConfig

  predicate IsExporting(p: Name) { p == TAIL_SAMPLING || p == BATCH }

  /** The processors that stay in front of the split, in order. */
  function StayIn(processors: seq<Name>): seq<Name> {
    if processors == [] then []
    else
      var last := processors[|processors| - 1];
      StayIn(processors[..|processors| - 1]) + if IsExporting(last) then [] else [last]
  }

  /** The sampler before the batcher, each at most once. */
  function Exporting(processors: seq<Name>): seq<Name> {
    (if TAIL_SAMPLING in processors then [TAIL_SAMPLING] else []) + (if BATCH in processors then [BATCH] else [])
  }

  method SplitTracesProcessorsForPipelines(tracesProcessors: seq<Name>, tracesPostForwardProcessors: seq<Name>)
    returns (tracesIn: seq<Name>, tracesExporting: seq<Name>)
    ensures tracesIn == StayIn(tracesProcessors)
    ensures tracesExporting == Exporting(tracesProcessors) + tracesPostForwardProcessors
  {
    tracesIn, tracesExporting := [], [];
    for i := 0 to |tracesProcessors|
      invariant tracesIn == StayIn(tracesProcessors[..i])
      invariant forall p :: p in tracesExporting <==> IsExporting(p) && p in tracesProcessors[..i]
    {
      var processor := tracesProcessors[i];
      assert tracesProcessors[..i + 1] == tracesProcessors[..i] + [processor];
      if processor == GROUP_BY_TRACE {
        tracesIn := tracesIn + [processor];
        continue;
      }
      if processor in {TAIL_SAMPLING, BATCH} {
        tracesExporting := tracesExporting + [processor];
        continue;
      }
      tracesIn := tracesIn + [processor];
    }
    assert tracesProcessors[..|tracesProcessors|] == tracesProcessors;
    var ordered := OrderExportingPipelineProcessors(tracesExporting);
    assert ordered == Exporting(tracesProcessors);
    tracesExporting := ordered + tracesPostForwardProcessors;
  }

  /** The loops of orderExportingPipelineProcessors; for what the split passes on, nothing else is left. */
  method OrderExportingPipelineProcessors(processors: seq<Name>) returns (ordered: seq<Name>)
    ensures ordered == Exporting(processors) + StayIn(processors)
    ensures (forall p :: p in processors ==> IsExporting(p)) ==> ordered == Exporting(processors)
  {
    ordered := [];
    if TAIL_SAMPLING in processors {
      ordered := ordered + [TAIL_SAMPLING];
    }
    if BATCH in processors {
      ordered := ordered + [BATCH];
    }
    ordered := AppendOthers(ordered, processors);
    StayInIs(processors);
  }

  method AppendOthers(before: seq<Name>, processors: seq<Name>) returns (ordered: seq<Name>)
    ensures ordered == before + StayIn(processors)
  {
    ordered := before;
    for i := 0 to |processors|
      invariant ordered == before + StayIn(processors[..i])
    {
      var processor := processors[i];
      assert processors[..i + 1][..i] == processors[..i];
      if processor == TAIL_SAMPLING || processor == BATCH {
        continue;
      }
      ordered := ordered + [processor];
    }
    assert processors[..|processors|] == processors;
  }

  lemma {:induction false} StayInIs(processors: seq<Name>)
    ensures forall p :: p in StayIn(processors) <==> p in processors && !IsExporting(p)
    ensures (forall p :: p in processors ==> IsExporting(p)) ==> StayIn(processors) == []
  {
    if processors != [] {
      var front, last := processors[..|processors| - 1], processors[|processors| - 1];
      assert processors == front + [last];
      StayInIs(front);
    }
  }

  /** What stays in front of the split keeps its relative order. */
  lemma {:induction false} StayInKeepsOrder(processors: seq<Name>) returns (from: seq<nat>)
    ensures Embeds(from, StayIn(processors), processors)
  {
    from := [];
    if processors != [] {
      var front, last := processors[..|processors| - 1], processors[|processors| - 1];
      assert processors == front + [last];
      from := StayInKeepsOrder(front);
      EmbedsMore(from, StayIn(front), front, last);
      assert StayIn(front) + [] == StayIn(front);
      if !IsExporting(last) {
        from := from + [|front|];
      }
    }
  }

  lemma {:induction false} StayInCounts(processors: seq<Name>, p: Name)
    ensures multiset(StayIn(processors))[p] == if IsExporting(p) then 0 else multiset(processors)[p]
  {
    if processors != [] {
      var front, last := processors[..|processors| - 1], processors[|processors| - 1];
      assert processors == front + [last];
      StayInCounts(front, p);
    }
  }

  lemma ExportingCounts(processors: seq<Name>, p: Name)
    ensures multiset(Exporting(processors))[p] == if IsExporting(p) then AtMostOne(multiset(processors)[p]) else 0
  {
  }

  /** Both sides of the split together. */
  function Split(processors: seq<Name>, post: seq<Name>): multiset<Name> {
    multiset(StayIn(processors)) + multiset(Exporting(processors) + post)
  }

  lemma SplitCounts(processors: seq<Name>, post: seq<Name>, p: Name)
    ensures Split(processors, post)[p] ==
              multiset(post)[p] + if IsExporting(p) then AtMostOne(multiset(processors)[p]) else multiset(processors)[p]
  {
    StayInCounts(processors, p);
    ExportingCounts(processors, p);
    assert multiset(Exporting(processors) + post)[p] == multiset(Exporting(processors))[p] + multiset(post)[p];
  }

  /**
   The split loses and duplicates nothing if and only if the sampler and the batcher each occur at most
   once among the trace processors: of either, it keeps a single one.
   */
  lemma SplitConserves(processors: seq<Name>, post: seq<Name>)
    ensures Split(processors, post) == multiset(processors) + multiset(post) <==>
              multiset(processors)[TAIL_SAMPLING] <= 1 && multiset(processors)[BATCH] <= 1
  {
    var whole := multiset(processors) + multiset(post);
    forall p: Name
      ensures Split(processors, post)[p] == whole[p] <==> !IsExporting(p) || multiset(processors)[p] <= 1
    {
      SplitCounts(processors, post, p);
    }
    if multiset(processors)[TAIL_SAMPLING] <= 1 && multiset(processors)[BATCH] <= 1 {
      assert forall p: Name :: Split(processors, post)[p] == whole[p];
    }
  }

  function AtMostOne(n: nat): nat { if n > 1 then 1 else n }
}
