/**
 Merging the collector configurations of several domains (`common/config/config.go`, MergeConfigs): a
 disjoint union, section by section, in the order of the domain names.
 */
module MergeConfigs {
  import opened Wrappers
  import opened CollectorConfig

  // ---------- the order of names ----------

  /** Strings compare by their first differing character. */
  predicate Less(a: string, b: string) {
    b != "" && (a == "" || a[0] < b[0] || (a[0] == b[0] && Less(a[1..], b[1..])))
  }

  lemma {:induction false} LessIsTotal(a: string, b: string)
    ensures a == b || Less(a, b) || Less(b, a)
    ensures !(Less(a, b) && Less(b, a)) && (Less(a, b) ==> a != b)
  {
    if a != "" && b != "" && a[0] == b[0] {
      LessIsTotal(a[1..], b[1..]);
      assert a == [a[0]] + a[1..] && b == [b[0]] + b[1..];
    }
  }

  lemma {:induction false} LessIsTransitive(a: string, b: string, c: string)
    requires Less(a, b) && Less(b, c)
    ensures Less(a, c)
  {
    if a != "" && a[0] == b[0] && b[0] == c[0] {
      LessIsTransitive(a[1..], b[1..], c[1..]);
    }
  }

  ghost predicate Ascending(s: seq<string>) {
    forall j, k :: 0 <= j < k < |s| ==> Less(s[j], s[k])
  }

  function Insert(x: string, s: seq<string>): seq<string> {
    if s == [] || Less(x, s[0]) then [x] + s else [s[0]] + Insert(x, s[1..])
  }

  /** What sort.Strings does to names without duplicates. */
  function Sort(s: seq<string>): seq<string> {
    if s == [] then [] else Insert(s[|s| - 1], Sort(s[..|s| - 1]))
  }

  lemma {:induction false} InsertIs(x: string, s: seq<string>)
    requires Ascending(s) && x !in s
    ensures Ascending(Insert(x, s)) && Elements(Insert(x, s)) == Elements(s) + {x}
  {
    if s != [] {
      LessIsTotal(x, s[0]);
      if Less(x, s[0]) {
        forall k | 0 <= k < |s| ensures Less(x, s[k]) {
          if k > 0 {
            LessIsTransitive(x, s[0], s[k]);
          }
        }
      } else {
        InsertIs(x, s[1..]);
        assert s == [s[0]] + s[1..];
        forall k | 0 <= k < |Insert(x, s[1..])| ensures Less(s[0], Insert(x, s[1..])[k]) {
          assert Insert(x, s[1..])[k] in Elements(s[1..]) + {x};
          if Insert(x, s[1..])[k] != x {
            var j :| 0 <= j < |s[1..]| && s[1..][j] == Insert(x, s[1..])[k];
            assert s[1..][j] == s[j + 1];
          }
        }
      }
    }
  }

  lemma {:induction false} SortIs(s: seq<string>)
    requires Distinct(s)
    ensures Ascending(Sort(s)) && Elements(Sort(s)) == Elements(s)
  {
    if s != [] {
      var front, last := s[..|s| - 1], s[|s| - 1];
      assert s == front + [last];
      Extend(front, last);
      SortIs(front);
      assert last !in Elements(Sort(front));
      InsertIs(last, Sort(front));
    }
  }

  /** There is one ascending list of any set of names. */
  lemma {:induction false} AscendingIsUnique(a: seq<string>, b: seq<string>)
    requires Ascending(a) && Ascending(b) && Elements(a) == Elements(b)
    ensures a == b
  {
    NoElements(a);
    NoElements(b);
    if a != [] {
      assert a[0] in Elements(b);
      SameHead(a, b);
      SameHead(b, a);
      LessIsTotal(a[0], b[0]);
      assert a == [a[0]] + a[1..] && b == [b[0]] + b[1..];
      assert a[0] !in a[1..] && b[0] !in b[1..] by {
        LessIsTotal(a[0], a[0]);
      }
      assert Elements(a[1..]) == Elements(a) - {a[0]} && Elements(b[1..]) == Elements(b) - {b[0]};
      AscendingIsUnique(a[1..], b[1..]);
    }
  }

  lemma NoElements<T>(s: seq<T>)
    ensures s == [] <==> Elements(s) == {}
  {
    if |s| > 0 {
      assert s[0] in Elements(s);
    }
  }

  lemma SameHead(a: seq<string>, b: seq<string>)
    requires a != [] && b != [] && Ascending(b) && Elements(a) == Elements(b)
    ensures a[0] == b[0] || Less(b[0], a[0])
  {
    assert a[0] in Elements(b);
  }

  // ---------- sections ----------

  /** The union of two maps that have no key in common. */
  function MergeTwo<V>(a: map<Name, V>, b: map<Name, V>): Option<map<Name, V>> {
    if a.Keys !! b.Keys then Some(a + b) else None
  }

  function MergeList<V>(parts: seq<map<Name, V>>): Option<map<Name, V>> {
    if parts == [] then Some(map[])
    else
      var front := MergeList(parts[..|parts| - 1]);
      if front.None? then None else MergeTwo(front.value, parts[|parts| - 1])
  }

  ghost predicate PairwiseDisjoint<V>(parts: seq<map<Name, V>>) {
    forall j, k :: 0 <= j < k < |parts| ==> parts[j].Keys !! parts[k].Keys
  }

  /** A list of maps merges iff they are pairwise disjoint, and then into exactly their union. */
  lemma {:induction false} MergeListIs<V>(parts: seq<map<Name, V>>)
    ensures MergeList(parts).Some? <==> PairwiseDisjoint(parts)
    ensures MergeList(parts).Some? ==> IsUnion(MergeList(parts).value, parts)
  {
    if parts != [] {
      var front, last := parts[..|parts| - 1], parts[|parts| - 1];
      MergeListIs(front);
      ApartMore(front, last);
      assert parts == front + [last];
      if MergeList(front).Some? {
        assert MergeList(front).value.Keys !! last.Keys <==>
          forall k :: 0 <= k < |front| ==> front[k].Keys !! last.Keys;
        if MergeList(parts).Some? {
          UnionMore(front, MergeList(front).value, last);
        }
      }
    }
  }

  lemma ApartMore<V>(front: seq<map<Name, V>>, last: map<Name, V>)
    ensures PairwiseDisjoint(front + [last]) <==>
        PairwiseDisjoint(front) && forall k :: 0 <= k < |front| ==> front[k].Keys !! last.Keys
  {
    var parts := front + [last];
    if PairwiseDisjoint(parts) {
      forall j, k | 0 <= j < k < |front| ensures front[j].Keys !! front[k].Keys {
        assert parts[j].Keys !! parts[k].Keys;
      }
      forall k | 0 <= k < |front| ensures front[k].Keys !! last.Keys {
        assert parts[k].Keys !! parts[|front|].Keys;
      }
    }
  }

  /** `m` holds exactly what the maps hold. */
  ghost predicate IsUnion<V>(m: map<Name, V>, parts: seq<map<Name, V>>) {
    && (forall n :: n in m <==> exists k :: 0 <= k < |parts| && n in parts[k])
    && forall k, n :: 0 <= k < |parts| && n in parts[k] ==> n in m && m[n] == parts[k][n]
  }

  lemma UnionMore<V>(front: seq<map<Name, V>>, m: map<Name, V>, last: map<Name, V>)
    requires IsUnion(m, front) && m.Keys !! last.Keys
    ensures IsUnion(m + last, front + [last])
  {
    var parts := front + [last];
    forall n ensures n in m + last <==> exists k :: 0 <= k < |parts| && n in parts[k] {
      if n in m {
        var k :| 0 <= k < |front| && n in front[k];
        assert parts[k] == front[k];
      }
      if n in last {
        assert n in parts[|front|];
      }
    }
  }

  // ---------- telemetry ----------

  function MergeMetricsLevel(a: string, b: string): Option<string> {
    if a != "" && b != "" && a != b then None else if a != "" then Some(a) else Some(b)
  }

  function MergeTelemetryResource(
      a: Option<seq<ResourceAttribute>>, b: Option<seq<ResourceAttribute>>): Option<seq<ResourceAttribute>> {
    if a.None? || |a.value| == 0 then b
    else if b.None? || |b.value| == 0 then a
    else Some(a.value + b.value)
  }

  function MergeTelemetryReaders(a: seq<Component>, b: seq<Component>): seq<Component> {
    if |a| == 0 then b else if |b| == 0 then a else a + b
  }

  function MergeTelemetry(a: Telemetry, b: Telemetry): Option<Telemetry> {
    match MergeMetricsLevel(a.metricsLevel, b.metricsLevel)
    case None => None
    case Some(level) =>
      Some(Telemetry(
        level, MergeTelemetryReaders(a.readers, b.readers),
        if b.logsLevel == "" then a.logsLevel else b.logsLevel,
        MergeTelemetryResource(a.resource, b.resource)))
  }

  // ---------- whole configurations ----------

  const EMPTY := Config(map[], map[], map[], map[], map[], [], map[], NO_TELEMETRY)

  function MergeConfig(a: Config, b: Config): Option<Config> {
    var receivers := MergeTwo(a.receivers, b.receivers);
    var exporters := MergeTwo(a.exporters, b.exporters);
    var processors := MergeTwo(a.processors, b.processors);
    var extensions := MergeTwo(a.extensions, b.extensions);
    var connectors := MergeTwo(a.connectors, b.connectors);
    var pipelines := MergeTwo(a.pipelines, b.pipelines);
    var telemetry := MergeTelemetry(a.telemetry, b.telemetry);
    if receivers.None? || exporters.None? || processors.None? || extensions.None? || connectors.None? ||
      pipelines.None? || telemetry.None?
    then None
    else Some(Config(
      receivers.value, exporters.value, processors.value, extensions.value, connectors.value,
      a.serviceExtensions + b.serviceExtensions, pipelines.value, telemetry.value))
  }

  /** The configurations of the domains, merged one after the other. */
  function MergeAll(configs: seq<Config>): Option<Config> {
    if configs == [] then Some(EMPTY)
    else
      var front := MergeAll(configs[..|configs| - 1]);
      if front.None? then None else MergeConfig(front.value, configs[|configs| - 1])
  }

  function InOrder(domains: map<string, Config>, order: seq<string>): (r: seq<Config>)
    requires forall d :: d in order ==> d in domains
    ensures |r| == |order|
  {
    seq(|order|, k requires 0 <= k < |order| => domains[order[k]])
  }

  datatype Section = Receivers | Exporters | Processors | Extensions | Connectors

  function SectionOf(c: Config, s: Section): Components {
    match s
    case Receivers => c.receivers
    case Exporters => c.exporters
    case Processors => c.processors
    case Extensions => c.extensions
    case Connectors => c.connectors
  }

  function Sections(configs: seq<Config>, s: Section): seq<Components> {
    if configs == [] then [] else Sections(configs[..|configs| - 1], s) + [SectionOf(configs[|configs| - 1], s)]
  }

  function AllPipelines(configs: seq<Config>): seq<Pipelines> {
    if configs == [] then [] else AllPipelines(configs[..|configs| - 1]) + [configs[|configs| - 1].pipelines]
  }

  function ServiceExtensions(configs: seq<Config>): seq<Name> {
    if configs == [] then []
    else ServiceExtensions(configs[..|configs| - 1]) + configs[|configs| - 1].serviceExtensions
  }

  function Readers(configs: seq<Config>): seq<Component> {
    if configs == [] then [] else Readers(configs[..|configs| - 1]) + configs[|configs| - 1].telemetry.readers
  }

  function Attributes(resource: Option<seq<ResourceAttribute>>): seq<ResourceAttribute> {
    if resource.Some? then resource.value else []
  }

  function ResourceAttributes(configs: seq<Config>): seq<ResourceAttribute> {
    if configs == [] then []
    else ResourceAttributes(configs[..|configs| - 1]) + Attributes(configs[|configs| - 1].telemetry.resource)
  }

  /** The logs level of the last configuration that sets one. */
  function LastLogsLevel(configs: seq<Config>): string {
    if configs == [] then ""
    else if configs[|configs| - 1].telemetry.logsLevel != "" then configs[|configs| - 1].telemetry.logsLevel
    else LastLogsLevel(configs[..|configs| - 1])
  }

  function MergeLevels(configs: seq<Config>): Option<string> {
    if configs == [] then Some("")
    else
      var front := MergeLevels(configs[..|configs| - 1]);
      if front.None? then None else MergeMetricsLevel(front.value, configs[|configs| - 1].telemetry.metricsLevel)
  }

  /** Whoever sets a metrics level sets this one. */
  ghost predicate LevelsAgree(configs: seq<Config>, level: string) {
    forall c :: c in configs ==> c.telemetry.metricsLevel == "" || c.telemetry.metricsLevel == level
  }

  /** The levels merge iff all that are set are the same, and then into that one. */
  lemma {:induction false} MergeLevelsIs(configs: seq<Config>)
    ensures MergeLevels(configs).Some? <==> exists level :: LevelsAgree(configs, level)
    ensures MergeLevels(configs).Some? ==> LevelsAgree(configs, MergeLevels(configs).value)
    ensures MergeLevels(configs).Some? && MergeLevels(configs).value != "" ==>
              exists c :: c in configs && c.telemetry.metricsLevel == MergeLevels(configs).value
  {
    if configs == [] {
      assert LevelsAgree(configs, "");
    } else {
      var front, last := configs[..|configs| - 1], configs[|configs| - 1];
      assert configs == front + [last];
      MergeLevelsIs(front);
      if level :| LevelsAgree(configs, level) {
        assert LevelsAgree(front, level);
        assert last in configs;
      }
      if MergeLevels(configs).Some? {
        assert LevelsAgree(configs, MergeLevels(configs).value);
      }
    }
  }

  // ---------- what merging is ----------

  /** One more configuration is one more part of each section. */
  lemma MergeStep(configs: seq<Config>, s: Section)
    requires configs != []
    ensures var front, last := configs[..|configs| - 1], configs[|configs| - 1];
      && MergeList(Sections(configs, s)) ==
           (if MergeList(Sections(front, s)).None? then None
             else MergeTwo(MergeList(Sections(front, s)).value, SectionOf(last, s)))
      && MergeList(AllPipelines(configs)) ==
           if MergeList(AllPipelines(front)).None? then None
             else MergeTwo(MergeList(AllPipelines(front)).value, last.pipelines)
  {
  }

  lemma {:induction false} SectionsAre(configs: seq<Config>, s: Section)
    ensures |Sections(configs, s)| == |configs| && |AllPipelines(configs)| == |configs|
    ensures forall k :: 0 <= k < |configs| ==> Sections(configs, s)[k] == SectionOf(configs[k], s)
    ensures forall k :: 0 <= k < |configs| ==> AllPipelines(configs)[k] == configs[k].pipelines
  {
    if configs != [] {
      SectionsAre(configs[..|configs| - 1], s);
    }
  }

  /** A successful merge is a merge of every section. */
  lemma {:induction false} SectionMerges(configs: seq<Config>, s: Section)
    requires MergeAll(configs).Some?
    ensures var c := MergeAll(configs).value;
      && MergeList(Sections(configs, s)) == Some(SectionOf(c, s)) &&
        MergeList(AllPipelines(configs)) == Some(c.pipelines)
      && MergeLevels(configs) == Some(c.telemetry.metricsLevel)
  {
    if configs != [] {
      var front, last := configs[..|configs| - 1], configs[|configs| - 1];
      SectionMerges(front, s);
      MergeStep(configs, s);
      MergeConfigSection(MergeAll(front).value, last, s);
    }
  }

  lemma MergeConfigSection(a: Config, b: Config, s: Section)
    requires MergeConfig(a, b).Some?
    ensures var c := MergeConfig(a, b).value;
      && MergeTwo(SectionOf(a, s), SectionOf(b, s)) == Some(SectionOf(c, s)) &&
        MergeTwo(a.pipelines, b.pipelines) == Some(c.pipelines)
      && MergeMetricsLevel(a.telemetry.metricsLevel, b.telemetry.metricsLevel) == Some(c.telemetry.metricsLevel)
  {
  }

  /** If every section can be merged, the configurations can. */
  lemma {:induction false} AllMerge(configs: seq<Config>)
    requires forall s :: MergeList(Sections(configs, s)).Some?
    requires MergeList(AllPipelines(configs)).Some? && MergeLevels(configs).Some?
    ensures MergeAll(configs).Some?
  {
    if configs != [] {
      var front, last := configs[..|configs| - 1], configs[|configs| - 1];
      forall s
        ensures MergeList(Sections(front, s)).Some? &&
            MergeTwo(MergeList(Sections(front, s)).value, SectionOf(last, s)).Some?
      {
        MergeStep(configs, s);
      }
      MergeStep(configs, Receivers);
      AllMerge(front);
      var a := MergeAll(front).value;
      forall s ensures MergeTwo(SectionOf(a, s), SectionOf(last, s)).Some? {
        SectionMerges(front, s);
      }
      SectionMerges(front, Receivers);
      ConfigMerges(a, last);
    }
  }

  lemma ConfigMerges(a: Config, b: Config)
    requires forall s :: MergeTwo(SectionOf(a, s), SectionOf(b, s)).Some?
    requires MergeTwo(a.pipelines, b.pipelines).Some? &&
        MergeMetricsLevel(a.telemetry.metricsLevel, b.telemetry.metricsLevel).Some?
    ensures MergeConfig(a, b).Some?
  {
    assert MergeTwo(SectionOf(a, Receivers), SectionOf(b, Receivers)).Some? &&
      MergeTwo(SectionOf(a, Exporters), SectionOf(b, Exporters)).Some?;
    assert MergeTwo(SectionOf(a, Processors), SectionOf(b, Processors)).Some? &&
      MergeTwo(SectionOf(a, Extensions), SectionOf(b, Extensions)).Some?;
    assert MergeTwo(SectionOf(a, Connectors), SectionOf(b, Connectors)).Some?;
  }

  /** The lists are concatenated in order, and the last logs level that is set counts. */
  lemma {:induction false} MergeKeepsOrder(configs: seq<Config>)
    requires MergeAll(configs).Some?
    ensures var c := MergeAll(configs).value;
      && c.serviceExtensions == ServiceExtensions(configs)
      && c.telemetry.readers == Readers(configs)
      && c.telemetry.logsLevel == LastLogsLevel(configs)
      && Attributes(c.telemetry.resource) == ResourceAttributes(configs)
  {
    if configs != [] {
      var front, last := configs[..|configs| - 1], configs[|configs| - 1];
      MergeKeepsOrder(front);
      var a := MergeAll(front).value;
      assert a.telemetry.readers + [] == a.telemetry.readers && [] + last.telemetry.readers == last.telemetry.readers;
      assert Attributes(a.telemetry.resource) + [] == Attributes(a.telemetry.resource);
      assert [] + Attributes(last.telemetry.resource) == Attributes(last.telemetry.resource);
    }
  }

  /** Two domains can be merged: no name of a section or pipeline in common, and no two metrics levels. */
  ghost predicate Compatible(a: Config, b: Config) {
    && (forall s :: SectionOf(a, s).Keys !! SectionOf(b, s).Keys) && a.pipelines.Keys !! b.pipelines.Keys
    && (a.telemetry.metricsLevel == "" || b.telemetry.metricsLevel == "" ||
      a.telemetry.metricsLevel == b.telemetry.metricsLevel)
  }

  /** `c` holds what the configurations hold, in every section. */
  ghost predicate Holds(c: Config, configs: seq<Config>) {
    && (forall s :: IsUnion(SectionOf(c, s), Sections(configs, s))) && IsUnion(c.pipelines, AllPipelines(configs))
  }

  /** Configurations merge iff they are pairwise compatible, and the result is their union. */
  lemma MergeIsDisjointUnion(configs: seq<Config>)
    ensures MergeAll(configs).Some? <==> forall j, k :: 0 <= j < k < |configs| ==> Compatible(configs[j], configs[k])
    ensures MergeAll(configs).Some? ==> Holds(MergeAll(configs).value, configs)
    ensures MergeAll(configs).Some? ==> LevelsAgree(configs, MergeAll(configs).value.telemetry.metricsLevel)
  {
    MergeLevelsIs(configs);
    MergeListIs(AllPipelines(configs));
    forall s
      ensures MergeList(Sections(configs, s)).Some? <==> PairwiseDisjoint(Sections(configs, s))
      ensures MergeList(Sections(configs, s)).Some? ==>
          IsUnion(MergeList(Sections(configs, s)).value, Sections(configs, s))
    {
      MergeListIs(Sections(configs, s));
    }
    if MergeAll(configs).Some? {
      forall s ensures MergeList(Sections(configs, s)) == Some(SectionOf(MergeAll(configs).value, s)) {
        SectionMerges(configs, s);
      }
      SectionMerges(configs, Receivers);
      ApartIsCompatible(configs);
    }
    if forall j, k :: 0 <= j < k < |configs| ==> Compatible(configs[j], configs[k]) {
      CompatibleIsApart(configs);
      AllMerge(configs);
    }
  }

  lemma CompatibleIsApart(configs: seq<Config>)
    requires forall j, k :: 0 <= j < k < |configs| ==> Compatible(configs[j], configs[k])
    ensures (forall s :: PairwiseDisjoint(Sections(configs, s))) && PairwiseDisjoint(AllPipelines(configs)) &&
        exists level :: LevelsAgree(configs, level)
  {
    OneLevel(configs);
    forall s ensures PairwiseDisjoint(Sections(configs, s)) {
      SectionsAre(configs, s);
    }
    SectionsAre(configs, Receivers);
  }

  lemma ApartIsCompatible(configs: seq<Config>)
    requires (forall s :: PairwiseDisjoint(Sections(configs, s))) && PairwiseDisjoint(AllPipelines(configs)) &&
        exists level :: LevelsAgree(configs, level)
    ensures forall j, k :: 0 <= j < k < |configs| ==> Compatible(configs[j], configs[k])
  {
    var level :| LevelsAgree(configs, level);
    forall j, k | 0 <= j < k < |configs| ensures Compatible(configs[j], configs[k]) {
      assert configs[j] in configs && configs[k] in configs;
      forall s ensures SectionOf(configs[j], s).Keys !! SectionOf(configs[k], s).Keys {
        SectionsAre(configs, s);
        assert Sections(configs, s)[j].Keys !! Sections(configs, s)[k].Keys;
      }
      SectionsAre(configs, Receivers);
      assert AllPipelines(configs)[j].Keys !! AllPipelines(configs)[k].Keys;
    }
  }

  lemma OneLevel(configs: seq<Config>)
    requires forall j, k :: 0 <= j < k < |configs| ==> Compatible(configs[j], configs[k])
    ensures exists level :: LevelsAgree(configs, level)
  {
    if k :| 0 <= k < |configs| && configs[k].telemetry.metricsLevel != "" {
      var level := configs[k].telemetry.metricsLevel;
      forall c | c in configs ensures c.telemetry.metricsLevel == "" || c.telemetry.metricsLevel == level {
        var j :| 0 <= j < |configs| && configs[j] == c;
        assert j < k ==> Compatible(configs[j], configs[k]);
        assert k < j ==> Compatible(configs[k], configs[j]);
      }
      assert LevelsAgree(configs, level);
    } else {
      assert LevelsAgree(configs, "");
    }
  }

  // ---------- the merge ----------

  datatype MergeError = DuplicateKey(key: Name) | DuplicatePipeline(key: Name) | MetricsLevelSetTwice

  /** The configurations of the domains in the order of their names. */
  ghost function Merged(domains: map<string, Config>, order: seq<string>): Option<Config>
    requires forall d :: d in order ==> d in domains
  {
    MergeAll(InOrder(domains, order))
  }

  /** The loops of mergeGenericMaps and mergePipelines, for two maps. */
  method MergeMaps<V>(a: map<Name, V>, b: map<Name, V>) returns (r: Result<map<Name, V>, Name>)
    ensures r.Ok? <==> MergeTwo(a, b).Some?
    ensures r.Ok? ==> Some(r.value) == MergeTwo(a, b)
    ensures r.Err? ==> r.error in a && r.error in b
  {
    var merged := a;
    var remaining := b.Keys;
    while |remaining| != 0
      invariant remaining <= b.Keys
      invariant forall k :: k in b && k !in remaining ==> k !in a
      invariant merged == a + map k | k in b && k !in remaining :: b[k]
      decreases remaining
    {
      var k :| k in remaining;
      remaining := remaining - {k};
      if k in merged {
        return Err(k);
      }
      merged := merged[k := b[k]];
    }
    assert merged == a + b;
    return Ok(merged);
  }

  /** All the domains, in the order of their names. */
  ghost predicate InNameOrder(domains: map<string, Config>, order: seq<string>) {
    Ascending(order) && Elements(order) == domains.Keys && forall d :: d in order ==> d in domains
  }

  /** What two configurations have in common that they must not. */
  ghost predicate Clash(a: Config, b: Config, e: MergeError) {
    match e
    case DuplicateKey(key) => exists s :: key in SectionOf(a, s) && key in SectionOf(b, s)
    case DuplicatePipeline(key) => key in a.pipelines && key in b.pipelines
    case MetricsLevelSetTwice => MergeMetricsLevel(a.telemetry.metricsLevel, b.telemetry.metricsLevel) == None
  }

  method MergeConfigs(domains: map<string, Config>) returns (r: Result<Config, MergeError>)
    ensures forall order :: InNameOrder(domains, order) ==> (r.Ok? <==> Merged(domains, order).Some?)
    ensures forall order :: InNameOrder(domains, order) && r.Ok? ==> Merged(domains, order) == Some(r.value)
    ensures r.Err? ==> exists d, e :: d in domains && e in domains && d != e && Clash(domains[d], domains[e], r.error)
  {
    var names := NamesInAnyOrder(domains);
    var domainNames := Sort(names);
    SortIs(names);
    forall d | d in domainNames ensures d in domains {
      assert d in Elements(domainNames);
    }
    forall order | InNameOrder(domains, order) ensures order == domainNames {
      AscendingIsUnique(order, domainNames);
    }
    ghost var j, k;
    r, j, k := MergeInOrder(domains, domainNames, InOrder(domains, domainNames));
    if r.Err? {
      assert domainNames[j] in domainNames && domainNames[k] in domainNames;
      LessIsTotal(domainNames[j], domainNames[k]);
    }
  }

  /** The loop over the sorted domains. */
  method MergeInOrder(domains: map<string, Config>, order: seq<string>, ghost configs: seq<Config>)
    returns (r: Result<Config, MergeError>, ghost j: nat, ghost k: nat)
    requires |configs| == |order| && forall i :: 0 <= i < |order| ==>
        order[i] in domains && domains[order[i]] == configs[i]
    ensures r.Ok? <==> MergeAll(configs).Some?
    ensures r.Ok? ==> Some(r.value) == MergeAll(configs)
    ensures r.Err? ==> j < k < |configs| && Clash(configs[j], configs[k], r.error)
  {
    var merged := EMPTY;
    j, k := 0, 0;
    for i := 0 to |order|
      invariant MergeAll(configs[..i]) == Some(merged)
    {
      assert configs[..i + 1][..i] == configs[..i];
      var next := MergeInto(merged, domains[order[i]]);
      if next.Err? {
        FailureStays(configs, i + 1);
        j := ClashesWithOne(configs[..i], merged, configs[i], next.error);
        return Err(next.error), j, i;
      }
      merged := next.value;
    }
    assert configs[..|order|] == configs;
    return Ok(merged), j, k;
  }

  /** What clashes with the merge of several configurations clashes with one of them. */
  lemma ClashesWithOne(configs: seq<Config>, a: Config, b: Config, e: MergeError) returns (j: nat)
    requires MergeAll(configs) == Some(a) && Clash(a, b, e)
    ensures j < |configs| && Clash(configs[j], b, e)
  {
    MergeIsDisjointUnion(configs);
    match e {
      case DuplicateKey(key) =>
        var s :| key in SectionOf(a, s) && key in SectionOf(b, s);
        SectionsAre(configs, s);
        assert IsUnion(SectionOf(a, s), Sections(configs, s));
        j :| 0 <= j < |configs| && key in Sections(configs, s)[j];
      case DuplicatePipeline(key) =>
        SectionsAre(configs, Receivers);
        j :| 0 <= j < |configs| && key in AllPipelines(configs)[j];
      case MetricsLevelSetTwice =>
        MergeLevelsIs(configs);
        SectionMerges(configs, Receivers);
        j :| 0 <= j < |configs| && configs[j].telemetry.metricsLevel == a.telemetry.metricsLevel;
    }
  }

  lemma {:induction false} FailureStays(configs: seq<Config>, i: nat)
    requires i <= |configs| && MergeAll(configs[..i]).None?
    ensures MergeAll(configs).None?
    decreases |configs|
  {
    if i == |configs| {
      assert configs[..i] == configs;
    } else {
      assert configs[..|configs| - 1][..i] == configs[..i];
      FailureStays(configs[..|configs| - 1], i);
    }
  }

  /** Go iterates over a map in any order. */
  method NamesInAnyOrder(domains: map<string, Config>) returns (names: seq<string>)
    ensures Distinct(names) && Elements(names) == domains.Keys
  {
    names := [];
    var remaining := domains.Keys;
    while |remaining| != 0
      invariant remaining <= domains.Keys && Distinct(names) && Elements(names) == domains.Keys - remaining
      invariant forall d :: d in names ==> d !in remaining
      decreases remaining
    {
      var d :| d in remaining;
      remaining := remaining - {d};
      Extend(names, d);
      names := names + [d];
    }
    assert domains.Keys - remaining == domains.Keys;
  }

  /** The body of the loop over the domains. */
  method MergeInto(a: Config, b: Config) returns (r: Result<Config, MergeError>)
    ensures r.Ok? <==> MergeConfig(a, b).Some?
    ensures r.Ok? ==> Some(r.value) == MergeConfig(a, b)
    ensures r.Err? ==> Clash(a, b, r.error)
  {
    SectionsByName(a);
    SectionsByName(b);
    var receivers := MergeMaps(a.receivers, b.receivers);
    if receivers.Err? { return Err(DuplicateKey(receivers.error)); }
    var exporters := MergeMaps(a.exporters, b.exporters);
    if exporters.Err? { return Err(DuplicateKey(exporters.error)); }
    var processors := MergeMaps(a.processors, b.processors);
    if processors.Err? { return Err(DuplicateKey(processors.error)); }
    var extensions := MergeMaps(a.extensions, b.extensions);
    if extensions.Err? { return Err(DuplicateKey(extensions.error)); }
    var connectors := MergeMaps(a.connectors, b.connectors);
    if connectors.Err? { return Err(DuplicateKey(connectors.error)); }
    var serviceExtensions := a.serviceExtensions + b.serviceExtensions;
    var pipelines := MergeMaps(a.pipelines, b.pipelines);
    if pipelines.Err? { return Err(DuplicatePipeline(pipelines.error)); }
    var telemetry := MergeTelemetry(a.telemetry, b.telemetry);
    if telemetry.None? { return Err(MetricsLevelSetTwice); }
    return Ok(Config(
      receivers.value, exporters.value, processors.value, extensions.value, connectors.value,
      serviceExtensions, pipelines.value, telemetry.value));
  }

  lemma SectionsByName(c: Config)
    ensures SectionOf(c, Receivers) == c.receivers && SectionOf(c, Exporters) == c.exporters &&
        SectionOf(c, Processors) == c.processors
    ensures SectionOf(c, Extensions) == c.extensions && SectionOf(c, Connectors) == c.connectors
  {
  }

  /** However a map of domains is iterated, the result is the same. */
  lemma MergeIgnoresIteration(domains: map<string, Config>, a: seq<string>, b: seq<string>)
    requires Distinct(a) && Distinct(b) && Elements(a) == domains.Keys && Elements(b) == domains.Keys
    ensures Sort(a) == Sort(b)
  {
    SortIs(a);
    SortIs(b);
    AscendingIsUnique(Sort(a), Sort(b));
  }

  /** Domains merge iff any two of them are compatible. */
  lemma DomainsMergeIff(domains: map<string, Config>, order: seq<string>)
    requires InNameOrder(domains, order)
    ensures Merged(domains, order).Some? <==>
              forall d, e :: d in domains && e in domains && d != e ==> Compatible(domains[d], domains[e])
  {
    var configs := InOrder(domains, order);
    MergeIsDisjointUnion(configs);
    if forall d, e :: d in domains && e in domains && d != e ==> Compatible(domains[d], domains[e]) {
      forall j, k | 0 <= j < k < |configs| ensures Compatible(configs[j], configs[k]) {
        LessIsTotal(order[j], order[k]);
        assert order[j] in order && order[k] in order;
      }
    }
    if forall j, k :: 0 <= j < k < |configs| ==> Compatible(configs[j], configs[k]) {
      forall d, e | d in domains && e in domains && d != e ensures Compatible(domains[d], domains[e]) {
        assert d in Elements(order) && e in Elements(order);
        var j :| 0 <= j < |order| && order[j] == d;
        var k :| 0 <= k < |order| && order[k] == e;
        if j < k {
          assert Compatible(configs[j], configs[k]);
        } else {
          assert Compatible(configs[k], configs[j]);
          CompatibleBothWays(configs[k], configs[j]);
        }
      }
    }
  }

  lemma CompatibleBothWays(a: Config, b: Config)
    requires Compatible(a, b)
    ensures Compatible(b, a)
  {
  }
}
