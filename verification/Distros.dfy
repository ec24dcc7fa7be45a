/**
 Choosing an OpenTelemetry distribution for a runtime version along a chain of fallbacks, and building a
 provider from several sources of distributions (`distros/oteldistributions.go`).
 */
module Distros {
  import opened Wrappers

  type Name = string

  /** `supported` are the version constraints of its runtime environments, "" for none. */
  datatype Distro = Distro(supported: seq<string>, fallback: Option<Name>)

  type Distros = map<Name, Distro>

  /** Version parsing and constraint checking; a constraint that does not parse accepts nothing. */
  datatype Versions<!V> = Versions(parse: string -> Option<V>, accepts: (string, V) -> bool)

  // ---------- the chain ----------

  predicate Accepts<V>(vs: Versions<V>, d: Distro, v: V) {
    d.supported != [] && d.supported[0] != "" && vs.accepts(d.supported[0], v)
  }

  /** The walk ends here: the name is unknown, accepts the version, or has no fallback. */
  predicate Ends<V>(vs: Versions<V>, distros: Distros, name: Name, v: V) {
    name !in distros || Accepts(vs, distros[name], v) || distros[name].fallback.None?
  }

  function Next(distros: Distros, name: Name): Name {
    if name in distros && distros[name].fallback.Some? then distros[name].fallback.value else name
  }

  /** The name after n fallbacks. */
  function Nth(distros: Distros, start: Name, n: nat): Name {
    if n == 0 then start else Next(distros, Nth(distros, start, n - 1))
  }

  /** The walk goes on up to the n-th name and ends there. */
  ghost predicate EndsAt<V>(vs: Versions<V>, distros: Distros, start: Name, v: V, n: nat) {
    Ends(vs, distros, Nth(distros, start, n), v) && forall k :: 0 <= k < n ==>
      !Ends(vs, distros, Nth(distros, start, k), v)
  }

  ghost predicate Halts<V>(vs: Versions<V>, distros: Distros, start: Name, v: V) {
    exists n :: EndsAt(vs, distros, start, v, n)
  }

  /** The walk comes back to a name without having ended. */
  ghost predicate Loops<V>(vs: Versions<V>, distros: Distros, start: Name, v: V, i: nat, j: nat) {
    && i < j && Nth(distros, start, i) == Nth(distros, start, j)
    && forall k :: 0 <= k < j ==> !Ends(vs, distros, Nth(distros, start, k), v)
  }

  lemma {:induction false} FirstEnd<V>(vs: Versions<V>, distros: Distros, start: Name, v: V, n: nat)
    requires Ends(vs, distros, Nth(distros, start, n), v)
    ensures exists m: nat :: m <= n && EndsAt(vs, distros, start, v, m)
  {
    if k :| 0 <= k < n && Ends(vs, distros, Nth(distros, start, k), v) {
      FirstEnd(vs, distros, start, v, k);
    } else {
      assert EndsAt(vs, distros, start, v, n);
    }
  }

  lemma {:induction false} SameTail(distros: Distros, start: Name, i: nat, j: nat, k: nat)
    requires Nth(distros, start, i) == Nth(distros, start, j)
    ensures Nth(distros, start, i + k) == Nth(distros, start, j + k)
  {
    if k > 0 {
      SameTail(distros, start, i, j, k - 1);
    }
  }

  /** The walk halts iff it never comes back to a name it has left without ending. */
  lemma HaltsIffNoLoop<V>(vs: Versions<V>, distros: Distros, start: Name, v: V)
    ensures Halts(vs, distros, start, v) <==> !exists i, j :: Loops(vs, distros, start, v, i, j)
  {
    if i, j :| Loops(vs, distros, start, v, i, j) {
      forall n ensures !EndsAt(vs, distros, start, v, n) {
        LoopNeverEnds(vs, distros, start, v, i, j, n);
      }
    } else {
      EndsWithin(vs, distros, start, v);
    }
  }

  lemma {:induction false} LoopNeverEnds<V>(
      vs: Versions<V>, distros: Distros, start: Name, v: V, i: nat, j: nat, n: nat)
    requires Loops(vs, distros, start, v, i, j)
    ensures !Ends(vs, distros, Nth(distros, start, n), v)
  {
    if n >= j {
      SameTail(distros, start, i, j, n - j);
      LoopNeverEnds(vs, distros, start, v, i, j, i + n - j);
    }
  }

  ghost function Visited(distros: Distros, start: Name, n: nat): set<Name> {
    if n == 0 then {} else Visited(distros, start, n - 1) + {Nth(distros, start, n - 1)}
  }

  lemma {:induction false} VisitedIs(distros: Distros, start: Name, n: nat, name: Name)
    ensures name in Visited(distros, start, n) <==> exists k :: 0 <= k < n && Nth(distros, start, k) == name
  {
    if n > 0 {
      VisitedIs(distros, start, n - 1, name);
      assert name == Nth(distros, start, n - 1) ==> exists k :: 0 <= k < n && Nth(distros, start, k) == name;
    }
  }

  /** Every walk without a loop ends after at most one fallback for each distribution there is. */
  lemma EndsWithin<V>(vs: Versions<V>, distros: Distros, start: Name, v: V)
    requires !exists i, j :: Loops(vs, distros, start, v, i, j)
    ensures exists n: nat :: n <= |distros| && EndsAt(vs, distros, start, v, n)
  {
    if n :| 0 <= n <= |distros| && Ends(vs, distros, Nth(distros, start, n), v) {
      FirstEnd(vs, distros, start, v, n);
    } else {
      AllDifferent(vs, distros, start, v, |distros| + 1);
      SubsetIsSmaller(Visited(distros, start, |distros| + 1), distros.Keys);
      assert false;
    }
  }

  lemma {:induction false} AllDifferent<V>(vs: Versions<V>, distros: Distros, start: Name, v: V, n: nat)
    requires forall k :: 0 <= k < n ==> !Ends(vs, distros, Nth(distros, start, k), v)
    requires !exists i, j :: Loops(vs, distros, start, v, i, j)
    ensures Visited(distros, start, n) <= distros.Keys && |Visited(distros, start, n)| == n
  {
    if n > 0 {
      AllDifferent(vs, distros, start, v, n - 1);
      VisitedIs(distros, start, n - 1, Nth(distros, start, n - 1));
      forall k | 0 <= k < n - 1 ensures Nth(distros, start, k) != Nth(distros, start, n - 1) {
        assert !Loops(vs, distros, start, v, k, n - 1);
      }
    }
  }

  /** A chain of fallbacks that never repeats a known name lets the walk halt, whatever the version. */
  lemma AcyclicHalts<V>(vs: Versions<V>, distros: Distros, start: Name, v: V)
    requires forall i, j ::
               0 <= i < j && Nth(distros, start, i) == Nth(distros, start, j) && Nth(distros, start, j) in distros ==>
                 distros[Nth(distros, start, j)].fallback.None?
    ensures Halts(vs, distros, start, v)
  {
    forall i, j ensures !Loops(vs, distros, start, v, i, j) {
      assert Loops(vs, distros, start, v, i, j) ==> !Ends(vs, distros, Nth(distros, start, i), v);
    }
    HaltsIffNoLoop(vs, distros, start, v);
  }

  // ---------- the result ----------

  /** What a walk that ends at the n-th name answers. */
  function Answer(distros: Distros, start: Name, n: nat): Name {
    if Nth(distros, start, n) in distros then Nth(distros, start, n) else start
  }

  lemma EndIsUnique<V>(vs: Versions<V>, distros: Distros, start: Name, v: V, m: nat, n: nat)
    requires EndsAt(vs, distros, start, v, m) && EndsAt(vs, distros, start, v, n)
    ensures m == n
  {
  }

  /** From the start along the fallbacks of known names that do not accept, to a name where it ends. */
  ghost predicate Chain<V>(vs: Versions<V>, distros: Distros, chain: seq<Name>, v: V) {
    && chain != [] && Ends(vs, distros, chain[|chain| - 1], v)
    && forall k :: 0 <= k < |chain| - 1 ==>
         chain[k] in distros && !Accepts(vs, distros[chain[k]], v) && distros[chain[k]].fallback == Some(chain[k + 1])
  }

  /**
   The answer is the first name of the chain that accepts the version; if none does, the last name of
   the chain; and the start if the chain leads to an unknown name.
   */
  lemma {:induction false} WhatIsResolved<V>(vs: Versions<V>, distros: Distros, chain: seq<Name>, v: V, n: nat)
    requires Chain(vs, distros, chain, v) && EndsAt(vs, distros, chain[0], v, n)
    ensures n == |chain| - 1
    ensures Answer(distros, chain[0], n) == if chain[|chain| - 1] in distros then chain[|chain| - 1] else chain[0]
  {
    ChainIsNth(vs, distros, chain, v, |chain| - 1);
    forall k | 0 <= k < |chain| - 1 ensures !Ends(vs, distros, Nth(distros, chain[0], k), v) {
      ChainIsNth(vs, distros, chain, v, k);
      assert distros[chain[k]].fallback == Some(chain[k + 1]);
    }
    EndIsUnique(vs, distros, chain[0], v, n, |chain| - 1);
  }

  /** A fallback is passed over exactly if there is no first constraint, or the version does not meet it. */
  lemma ConstraintDecides<V>(vs: Versions<V>, distros: Distros, start: Name, v: V, n: nat, k: nat)
    requires EndsAt(vs, distros, start, v, n) && k <= n && Nth(distros, start, k) in distros
    requires distros[Nth(distros, start, k)].fallback.Some?
    ensures var constraints := distros[Nth(distros, start, k)].supported;
      k < n <==> constraints == [] || constraints[0] == "" || !vs.accepts(constraints[0], v)
  {
    assert k < n ==> !Ends(vs, distros, Nth(distros, start, k), v);
  }

  lemma {:induction false} ChainIsNth<V>(vs: Versions<V>, distros: Distros, chain: seq<Name>, v: V, k: nat)
    requires Chain(vs, distros, chain, v) && k < |chain|
    ensures Nth(distros, chain[0], k) == chain[k]
  {
    if k > 0 {
      ChainIsNth(vs, distros, chain, v, k - 1);
    }
  }

  /** Every walk that ends has such a chain. */
  lemma ChainOf<V>(vs: Versions<V>, distros: Distros, start: Name, v: V, n: nat)
    requires EndsAt(vs, distros, start, v, n)
    ensures exists chain :: Chain(vs, distros, chain, v) && chain[0] == start && |chain| == n + 1
  {
    var chain := seq(n + 1, k requires 0 <= k <= n => Nth(distros, start, k));
    forall k | 0 <= k < n ensures chain[k + 1] == Next(distros, chain[k]) && !Ends(vs, distros, chain[k], v) { }
    assert Chain(vs, distros, chain, v);
  }

  lemma {:induction false} NthFromNth(distros: Distros, start: Name, k: nat, n: nat)
    ensures Nth(distros, Nth(distros, start, k), n) == Nth(distros, start, k + n)
  {
    if n > 0 {
      NthFromNth(distros, start, k, n - 1);
    }
  }

  /** Starting further down the chain leads to the same end. */
  lemma SameEndFurtherDown<V>(vs: Versions<V>, distros: Distros, start: Name, v: V, n: nat, k: nat)
    requires EndsAt(vs, distros, start, v, n) && k <= n
    ensures EndsAt(vs, distros, Nth(distros, start, k), v, n - k)
  {
    forall m | 0 <= m <= n - k ensures Nth(distros, Nth(distros, start, k), m) == Nth(distros, start, k + m) {
      NthFromNth(distros, start, k, m);
    }
  }

  /** Resolving the answer again gives the answer: it stays put, or leads to the same unknown name. */
  lemma ResolvingIsIdempotent<V>(vs: Versions<V>, distros: Distros, start: Name, v: V, n: nat, m: nat)
    requires EndsAt(vs, distros, start, v, n) && EndsAt(vs, distros, Answer(distros, start, n), v, m)
    ensures Answer(distros, Answer(distros, start, n), m) == Answer(distros, start, n)
  {
    if Nth(distros, start, n) in distros {
      SameEndFurtherDown(vs, distros, start, v, n, n);
      EndIsUnique(vs, distros, Nth(distros, start, n), v, 0, m);
    }
  }

  /**
   The loop of ResolveDistroNameForVersion. It needs the walk to halt, which HaltsIffNoLoop makes the
   absence of a cycle among the fallbacks; `hops` counts the fallbacks taken.
   */
  method ResolveDistroNameForVersion<V(!new)>(
      vs: Versions<V>, distros: Distros, defaultDistroName: Name, runtimeVersion: string)
    returns (name: Name, ghost hops: nat)
    requires runtimeVersion != "" && vs.parse(runtimeVersion).Some? ==>
               Halts(vs, distros, defaultDistroName, vs.parse(runtimeVersion).value)
    ensures runtimeVersion == "" || vs.parse(runtimeVersion).None? ==> name == defaultDistroName
    ensures runtimeVersion != "" && vs.parse(runtimeVersion).Some? ==>
              EndsAt(vs, distros, defaultDistroName, vs.parse(runtimeVersion).value, hops) &&
              name == Answer(distros, defaultDistroName, hops) && hops <= |distros|
  {
    hops := 0;
    if runtimeVersion == "" {
      return defaultDistroName, hops;
    }
    var detected := vs.parse(runtimeVersion);
    if detected.None? {
      return defaultDistroName, hops;
    }
    var v := detected.value;
    HaltsIffNoLoop(vs, distros, defaultDistroName, v);
    EndsWithin(vs, distros, defaultDistroName, v);
    ghost var end: nat :| end <= |distros| && EndsAt(vs, distros, defaultDistroName, v, end);
    name := defaultDistroName;
    while true
      invariant name == Nth(distros, defaultDistroName, hops) && hops <= end
      invariant forall k :: 0 <= k < hops ==> !Ends(vs, distros, Nth(distros, defaultDistroName, k), v)
      decreases end - hops
    {
      if name !in distros {
        name := defaultDistroName;
        return;
      }
      var current := distros[name];
      if |current.supported| > 0 && current.supported[0] != "" {
        if vs.accepts(current.supported[0], v) {
          return;
        }
      }
      if current.fallback.None? {
        return;
      }
      assert !Ends(vs, distros, name, v);
      name := current.fallback.value;
      hops := hops + 1;
    }
  }

  // ---------- providers ----------

  type Language = string

  datatype ProviderError = NoGetters | DefaultNotFound(name: Name)

  /** All the distributions; of those with one name, the one of the last source. */
  function Union(getters: seq<Distros>): Distros {
    if getters == [] then map[] else Union(getters[..|getters| - 1]) + getters[|getters| - 1]
  }

  lemma {:induction false} UnionIs(getters: seq<Distros>, name: Name)
    ensures name in Union(getters) <==> exists k :: 0 <= k < |getters| && name in getters[k]
    ensures forall k ::
              0 <= k < |getters| && name in getters[k] && (forall j :: k < j < |getters| ==> name !in getters[j]) ==>
                Union(getters)[name] == getters[k][name]
  {
    if getters != [] {
      var front, last := getters[..|getters| - 1], getters[|getters| - 1];
      UnionIs(front, name);
      if name in last {
        assert name in getters[|getters| - 1];
      }
      if k :| 0 <= k < |getters| && name in getters[k] {
        assert k < |front| ==> name in front[k];
      }
    }
  }

  method NewProvider(defaults: map<Language, Name>, getters: seq<Distros>) returns (r: Result<Distros, ProviderError>)
    ensures r.Ok? <==> getters != [] && forall l :: l in defaults ==>
        exists k :: 0 <= k < |getters| && defaults[l] in getters[k]
    ensures r.Ok? ==> r.value == Union(getters)
    ensures r == Err(NoGetters) <==> getters == []
    ensures r.Err? && r.error.DefaultNotFound? ==>
              (exists l :: l in defaults && defaults[l] == r.error.name) && forall k :: 0 <= k < |getters| ==>
                r.error.name !in getters[k]
  {
    if |getters| == 0 {
      return Err(NoGetters);
    }
    var distros: Distros := map[];
    for i := 0 to |getters|
      invariant distros == Union(getters[..i])
    {
      assert getters[..i + 1][..i] == getters[..i];
      distros := distros + getters[i];
    }
    assert getters[..|getters|] == getters;
    var remaining := defaults.Keys;
    while |remaining| != 0
      invariant remaining <= defaults.Keys
      invariant forall l :: l in defaults && l !in remaining ==>
          exists k :: 0 <= k < |getters| && defaults[l] in getters[k]
      decreases remaining
    {
      var l :| l in remaining;
      remaining := remaining - {l};
      UnionIs(getters, defaults[l]);
      if defaults[l] !in distros {
        return Err(DefaultNotFound(defaults[l]));
      }
    }
    return Ok(distros);
  }
}
