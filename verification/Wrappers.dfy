/** Failure-aware result types shared by every module. */
module Wrappers {

  datatype Option<+T> = None | Some(value: T)

  datatype Result<+T, +E> = Ok(value: T) | Err(error: E)

  /** No element occurs twice. */
  ghost predicate Distinct<T>(s: seq<T>) {
    forall i, j :: 0 <= i < j < |s| ==> s[i] != s[j]
  }

  /** The elements of a sequence, as a set. */
  ghost function Elements<T>(s: seq<T>): set<T> {
    set x | x in s
  }

  lemma Regroup<T>(a: seq<T>, b: seq<T>, c: seq<T>, d: seq<T>)
    ensures a + b + c + d == a + (b + c + d)
    ensures a + b + c == a + (b + c)
  {
  }

  lemma Extend<T>(s: seq<T>, x: T)
    ensures Elements(s + [x]) == Elements(s) + {x}
    ensures Distinct(s) && x !in s ==> Distinct(s + [x])
    ensures (s + [x])[..|s|] == s
  {
  }

  /** `kept` is what is left of `all` at the rising positions `from`. */
  ghost predicate Embeds<T>(from: seq<nat>, kept: seq<T>, all: seq<T>) {
    && |from| == |kept|
    && (forall k :: 0 <= k < |from| ==> from[k] < |all| && kept[k] == all[from[k]])
    && (forall j, k :: 0 <= j < k < |from| ==> from[j] < from[k])
  }

  lemma EmbedsMore<T>(from: seq<nat>, kept: seq<T>, all: seq<T>, x: T)
    requires Embeds(from, kept, all)
    ensures Embeds(from, kept, all + [x])
    ensures Embeds(from + [|all|], kept + [x], all + [x])
  {
  }

  lemma SubsetIsSmaller<T>(a: set<T>, b: set<T>)
    requires a <= b
    ensures |a| <= |b| && (|a| == |b| ==> a == b)
  {
    assert |b - a| == |b| - |a|;
  }
}
