/**
 Editing a configuration tree by dotted paths (`recommendations/apply.go`). The functions say what an
 edit does to a tree; the class walks the tree in place, creating the objects that are missing.
 */
module ConfigPath {
  import opened Wrappers
  import opened Text

  type Fields = map<string, Value>

  /** A node of a decoded YAML document; `Leaf` is any scalar or list. */
  datatype Value = Null | Leaf(text: string) | Object(fields: Fields)

  type Path = seq<string>

  /** How an edit ends; `at` is the index of the part of the path where it stops. */
  datatype Outcome = Done | EmptyPart(at: nat) | NotAnObject(at: nat)

  function Shift(o: Outcome, k: nat): Outcome {
    match o
    case Done => Done
    case EmptyPart(at) => EmptyPart(at + k)
    case NotAnObject(at) => NotAnObject(at + k)
  }

  /** The object an edit descends into: a missing or null entry becomes an empty object. */
  function Child(o: Fields, part: string): Option<Fields> {
    if part !in o || o[part].Null? then Some(map[])
    else if o[part].Object? then Some(o[part].fields)
    else None
  }

  function SetPath(o: Fields, parts: Path, value: Value): (Fields, Outcome)
    requires parts != []
    decreases |parts|
  {
    if parts[0] == "" then (o, EmptyPart(0))
    else if |parts| == 1 then (o[parts[0] := value], Done)
    else
      match Child(o, parts[0])
      case None => (o, NotAnObject(0))
      case Some(child) =>
        var (edited, outcome) := SetPath(child, parts[1..], value);
        (o[parts[0] := Object(edited)], Shift(outcome, 1))
  }

  /** What a path reads; the empty path reads the whole document. */
  function Get(v: Value, path: Path): Option<Value> {
    if path == [] then Some(v)
    else if v.Object? && path[0] in v.fields then Get(v.fields[path[0]], path[1..])
    else None
  }

  function Read(o: Fields, path: Path): Option<Value> {
    Get(Object(o), path)
  }

  /** Below its first part a path reads in the child an edit would descend into. */
  lemma ReadInChild(o: Fields, path: Path)
    requires |path| > 1
    ensures Read(o, path) == if Child(o, path[0]).Some? then Read(Child(o, path[0]).value, path[1..]) else None
  {
    assert Get(Object(map[]), path[1..]) == None && Get(Null, path[1..]) == None;
    if path[0] in o {
      assert Read(o, path) == Get(o[path[0]], path[1..]);
      match o[path[0]]
      case Object(fields) => assert o[path[0]] == Object(fields);
      case _ =>
    }
  }

  lemma EditInChild(o: Fields, parts: Path, value: Value)
    requires |parts| > 1 && parts[0] != "" && Child(o, parts[0]).Some?
    ensures var (edited, outcome) := SetPath(Child(o, parts[0]).value, parts[1..], value);
      && SetPath(o, parts, value) == (o[parts[0] := Object(edited)], Shift(outcome, 1))
      && Child(SetPath(o, parts, value).0, parts[0]) == Some(edited)
  {
  }

  // ---------- when an edit succeeds ----------

  /** A path reads a value that is not an object and not null. */
  predicate IsLeaf(o: Fields, path: Path) {
    match Read(o, path)
    case Some(v) => v.Leaf?
    case None => false
  }

  predicate Named(parts: Path) {
    forall k :: 0 <= k < |parts| ==> parts[k] != ""
  }

  /** No proper prefix of the path reads a leaf. */
  ghost predicate Open(o: Fields, parts: Path) {
    forall n :: 0 < n < |parts| ==> !IsLeaf(o, parts[..n])
  }

  lemma ReadInto(o: Fields, parts: Path, n: nat)
    requires 0 < n <= |parts|
    ensures Read(o, parts[..n]) ==
              if parts[0] in o then Get(o[parts[0]], parts[1..][..n - 1]) else None
  {
    assert parts[..n][1..] == parts[1..][..n - 1];
  }

  /** What an entry holds below itself is what its child holds. */
  lemma LeafInChild(o: Fields, parts: Path, n: nat)
    requires 1 < n <= |parts| && Child(o, parts[0]).Some?
    ensures IsLeaf(o, parts[..n]) <==> IsLeaf(Child(o, parts[0]).value, parts[1..][..n - 1])
  {
    ReadInto(o, parts, n);
  }

  lemma OpenDown(o: Fields, parts: Path)
    requires |parts| > 1 && Child(o, parts[0]).Some?
    ensures Open(o, parts) <==> Open(Child(o, parts[0]).value, parts[1..])
  {
    var child := Child(o, parts[0]).value;
    ReadInto(o, parts, 1);
    forall n | 1 < n < |parts| ensures IsLeaf(o, parts[..n]) <==> IsLeaf(child, parts[1..][..n - 1]) {
      LeafInChild(o, parts, n);
    }
    forall n | 0 < n < |parts| - 1 ensures IsLeaf(child, parts[1..][..n]) <==> IsLeaf(o, parts[..n + 1]) {
      LeafInChild(o, parts, n + 1);
    }
  }

  /** An edit succeeds iff no part is empty and no proper prefix of the path reads a leaf. */
  lemma {:induction false} SucceedsIff(o: Fields, parts: Path, value: Value)
    requires parts != []
    ensures SetPath(o, parts, value).1.Done? <==> Named(parts) && Open(o, parts)
    decreases |parts|
  {
    if parts[0] != "" && |parts| > 1 {
      match Child(o, parts[0])
      case None =>
        ReadInto(o, parts, 1);
        assert IsLeaf(o, parts[..1]);
      case Some(child) =>
        SucceedsIff(child, parts[1..], value);
        OpenDown(o, parts);
        assert Named(parts) <==> Named(parts[1..]) by {
          assert parts == [parts[0]] + parts[1..];
        }
    }
  }

  /** An edit fails at the first part that is empty, or whose entry is a leaf though the path goes on. */
  ghost predicate FailsFirst(o: Fields, parts: Path, at: nat) {
    && at < |parts| && Named(parts[..at]) && Open(o, parts[..at + 1])
    && (parts[at] == "" || (at + 1 < |parts| && IsLeaf(o, parts[..at + 1])))
  }

  lemma FailsFirstDown(o: Fields, parts: Path, at: nat)
    requires |parts| > 1 && parts[0] != "" && Child(o, parts[0]).Some?
    ensures !FailsFirst(o, parts, 0)
    ensures FailsFirst(o, parts, at + 1) <==> FailsFirst(Child(o, parts[0]).value, parts[1..], at)
  {
    var child := Child(o, parts[0]).value;
    ReadInto(o, parts, 1);
    if at + 1 < |parts| {
      assert parts[..at + 2][1..] == parts[1..][..at + 1] && parts[..at + 2][0] == parts[0];
      OpenDown(o, parts[..at + 2]);
      LeafInChild(o, parts, at + 2);
      assert Named(parts[..at + 1]) <==> Named(parts[1..][..at]) by {
        assert parts[..at + 1] == [parts[0]] + parts[1..][..at];
      }
    }
  }

  /** Where and why an edit fails. */
  lemma {:induction false} FailsAt(o: Fields, parts: Path, value: Value, at: nat)
    requires parts != []
    ensures var outcome := SetPath(o, parts, value).1;
      && (outcome == EmptyPart(at) <==> FailsFirst(o, parts, at) && parts[at] == "")
      && (outcome == NotAnObject(at) <==> FailsFirst(o, parts, at) && parts[at] != "")
    decreases |parts|
  {
    if parts[0] == "" {
      assert FailsFirst(o, parts, 0);
    } else if |parts| > 1 {
      ReadInto(o, parts, 1);
      match Child(o, parts[0])
      case None =>
        assert IsLeaf(o, parts[..1]) && FailsFirst(o, parts, 0);
        assert at > 0 && at < |parts| ==> parts[..at + 1][..1] == parts[..1];
      case Some(child) =>
        if at > 0 {
          FailsFirstDown(o, parts, at - 1);
          FailsAt(child, parts[1..], value, at - 1);
        } else {
          FailsFirstDown(o, parts, 0);
        }
    }
  }

  // ---------- what an edit changes ----------

  predicate Unrelated(p: Path, q: Path) {
    !(p <= q) && !(q <= p)
  }

  /** After a successful edit the path reads the value, and what extends the path reads inside the value. */
  lemma {:induction false} ReadBack(o: Fields, parts: Path, value: Value, more: Path)
    requires parts != [] && SetPath(o, parts, value).1.Done?
    ensures Read(SetPath(o, parts, value).0, parts + more) == Get(value, more)
    decreases |parts|
  {
    assert (parts + more)[1..] == parts[1..] + more;
    if |parts| > 1 {
      ReadBack(Child(o, parts[0]).value, parts[1..], value, more);
    } else {
      assert parts[1..] + more == more;
    }
  }

  /** Whatever becomes of the edit, a path neither a prefix nor an extension of it reads as before. */
  lemma {:induction false} OthersReadAsBefore(o: Fields, parts: Path, value: Value, q: Path)
    requires parts != [] && Unrelated(parts, q)
    ensures Read(SetPath(o, parts, value).0, q) == Read(o, q)
    decreases |parts|
  {
    if q[0] == parts[0] {
      assert parts == [parts[0]] + parts[1..] && q == [q[0]] + q[1..];
      assert |parts| > 1 && |q| > 1;
      if parts[0] != "" && Child(o, parts[0]).Some? {
        EditInChild(o, parts, value);
        ReadInChild(o, q);
        ReadInChild(SetPath(o, parts, value).0, q);
        OthersReadAsBefore(Child(o, parts[0]).value, parts[1..], value, q[1..]);
      }
    }
  }

  /** Proper prefixes of the path read objects after a successful edit, and never turn into leaves. */
  lemma {:induction false} PrefixesBecomeObjects(o: Fields, parts: Path, value: Value, n: nat)
    requires parts != [] && n < |parts|
    ensures IsLeaf(SetPath(o, parts, value).0, parts[..n]) <==> IsLeaf(o, parts[..n])
    ensures SetPath(o, parts, value).1.Done? ==>
              var r := Read(SetPath(o, parts, value).0, parts[..n]); r.Some? && r.value.Object?
    decreases |parts|
  {
    if n > 0 && parts[0] != "" && Child(o, parts[0]).Some? {
      var child := Child(o, parts[0]).value;
      PrefixesBecomeObjects(child, parts[1..], value, n - 1);
      ReadInto(o, parts, n);
      ReadInto(SetPath(o, parts, value).0, parts, n);
      if n > 1 {
        LeafInChild(o, parts, n);
      }
    }
  }

  // ---------- two edits ----------

  /** An edit elsewhere does not decide whether this one succeeds. */
  lemma SuccessIsIndependent(o: Fields, p: Path, v: Value, q: Path, w: Value)
    requires p != [] && q != [] && Unrelated(p, q)
    ensures SetPath(SetPath(o, q, w).0, p, v).1.Done? <==> SetPath(o, p, v).1.Done?
  {
    var after := SetPath(o, q, w).0;
    forall n | 0 < n < |p| ensures IsLeaf(after, p[..n]) <==> IsLeaf(o, p[..n]) {
      assert q <= p[..n] ==> q <= p;
      if p[..n] <= q {
        assert p[..n] == q[..n];
        PrefixesBecomeObjects(o, q, w, n);
      } else {
        OthersReadAsBefore(o, q, w, p[..n]);
      }
    }
    SucceedsIff(after, p, v);
    SucceedsIff(o, p, v);
  }

  /** Edits at unrelated paths commute, whether or not they succeed. */
  lemma {:induction false} EditsCommute(o: Fields, p: Path, v: Value, q: Path, w: Value)
    requires p != [] && q != [] && Unrelated(p, q)
    ensures SetPath(SetPath(o, p, v).0, q, w).0 == SetPath(SetPath(o, q, w).0, p, v).0
    decreases |p|
  {
    if p[0] == q[0] {
      assert p == [p[0]] + p[1..] && q == [q[0]] + q[1..];
      assert |p| > 1 && |q| > 1;
      if p[0] != "" && Child(o, p[0]).Some? {
        EditsCommute(Child(o, p[0]).value, p[1..], v, q[1..], w);
        EditTwice(o, p, v, q, w);
        EditTwice(o, q, w, p, v);
      }
    } else {
      EditsAtOtherKeys(o, p, v, q, w);
    }
  }

  /** Two edits below one key are one change of the child. */
  lemma EditTwice(o: Fields, p: Path, v: Value, q: Path, w: Value)
    requires |p| > 1 && |q| > 1 && p[0] == q[0] != "" && Child(o, p[0]).Some?
    ensures SetPath(SetPath(o, p, v).0, q, w).0 ==
              o[p[0] := Object(SetPath(SetPath(Child(o, p[0]).value, p[1..], v).0, q[1..], w).0)]
  {
  }

  lemma EditsAtOtherKeys(o: Fields, p: Path, v: Value, q: Path, w: Value)
    requires p != [] && q != [] && p[0] != q[0]
    ensures SetPath(SetPath(o, p, v).0, q, w).0 == SetPath(SetPath(o, q, w).0, p, v).0
  {
    var a, b := SetPath(o, p, v).0, SetPath(o, q, w).0;
    assert Child(a, q[0]) == Child(o, q[0]) by { OneKey(o, p, v, q[0]); }
    assert Child(b, p[0]) == Child(o, p[0]) by { OneKey(o, q, w, p[0]); }
    EditIsEntry(o, p, v, b);
    EditIsEntry(o, q, w, a);
  }

  lemma OneKey(o: Fields, parts: Path, value: Value, key: string)
    requires parts != [] && key != parts[0]
    ensures key in SetPath(o, parts, value).0 <==> key in o
    ensures key in o ==> SetPath(o, parts, value).0[key] == o[key]
  {
  }

  /** An edit replaces one entry, by a value that depends on the child under its key only. */
  lemma EditIsEntry(o: Fields, parts: Path, value: Value, other: Fields)
    requires parts != [] && Child(other, parts[0]) == Child(o, parts[0])
    ensures SetPath(o, parts, value).1 == SetPath(other, parts, value).1
    ensures var a, b := SetPath(o, parts, value).0, SetPath(other, parts, value).0;
      (a == o && b == other) ||
      (parts[0] in a && parts[0] in b && a == o[parts[0] := a[parts[0]]] && b == other[parts[0] := a[parts[0]]])
  {
  }

  /** Of two edits at one path the second counts. */
  lemma {:induction false} LastEditCounts(o: Fields, parts: Path, v: Value, w: Value)
    requires parts != []
    ensures SetPath(SetPath(o, parts, v).0, parts, w) == SetPath(o, parts, w)
    decreases |parts|
  {
    if parts[0] != "" && |parts| > 1 && Child(o, parts[0]).Some? {
      LastEditCounts(Child(o, parts[0]).value, parts[1..], v, w);
      EditInChild(o, parts, v);
      EditInChild(o, parts, w);
      EditInChild(SetPath(o, parts, v).0, parts, w);
      var entry := SetPath(o, parts, w).0[parts[0]];
      assert SetPath(o, parts, v).0[parts[0] := entry] == o[parts[0] := entry];
    } else if parts[0] != "" && |parts| == 1 {
      assert o[parts[0] := v][parts[0] := w] == o[parts[0] := w];
    }
  }

  // ---------- failures ----------

  /** The edit stops at an empty part below an object it had to create. */
  ghost predicate LeavesDebris(o: Fields, parts: Path) {
    exists n :: 0 < n < |parts| && parts[n] == "" && Named(parts[..n]) && Vacant(o, parts[..n])
  }

  /** Nothing but null can be read there, and no leaf is in the way. */
  ghost predicate Vacant(o: Fields, path: Path) {
    Open(o, path) && (Read(o, path) == None || Read(o, path) == Some(Null))
  }

  lemma VacantDown(o: Fields, parts: Path, n: nat)
    requires 1 < n <= |parts| && Child(o, parts[0]).Some?
    ensures Vacant(o, parts[..n]) <==> Vacant(Child(o, parts[0]).value, parts[1..][..n - 1])
  {
    assert parts[..n][1..] == parts[1..][..n - 1];
    OpenDown(o, parts[..n]);
    ReadInto(o, parts, n);
  }

  /**
   A failed edit leaves the tree as it was, unless an empty part follows a prefix that had to be created.
   In particular a failure of a path without empty parts changes nothing.
   */
  lemma {:induction false} FailureLeavesTree(o: Fields, parts: Path, value: Value)
    requires parts != [] && !SetPath(o, parts, value).1.Done?
    ensures SetPath(o, parts, value).0 == o <==> !LeavesDebris(o, parts)
    decreases |parts|, 1
  {
    if parts[0] == "" {
      forall n | 0 < n < |parts| ensures !Named(parts[..n]) {
        assert parts[..n][0] == parts[0];
      }
    } else if Child(o, parts[0]).None? {
      forall n | 0 < n < |parts| ensures !Vacant(o, parts[..n]) {
        ReadInto(o, parts, 1);
        assert parts[..n][..1] == parts[..1] && IsLeaf(o, parts[..1]);
      }
    } else {
      FailureBelow(o, parts, value);
    }
  }

  lemma {:induction false} FailureBelow(o: Fields, parts: Path, value: Value)
    requires |parts| > 1 && parts[0] != "" && Child(o, parts[0]).Some? && !SetPath(o, parts, value).1.Done?
    ensures SetPath(o, parts, value).0 == o <==> !LeavesDebris(o, parts)
    decreases |parts|, 0
  {
    var child, rest := Child(o, parts[0]).value, parts[1..];
    if parts[0] in o && o[parts[0]].Object? {
      FailureLeavesTree(child, rest, value);
      DebrisDown(o, parts);
    } else {
      SucceedsIff(o, parts, value);
      forall n | 0 < n <= |parts| ensures !IsLeaf(o, parts[..n]) && Vacant(o, parts[..n]) {
        NothingBelow(o, parts, n);
      }
      var n := FirstEmpty(parts);
      assert LeavesDebris(o, parts);
      assert SetPath(o, parts, value).0[parts[0]].Object?;
    }
  }

  /** Below an object that is there, debris is debris in the object. */
  lemma DebrisDown(o: Fields, parts: Path)
    requires |parts| > 1 && parts[0] in o && o[parts[0]].Object? && parts[0] != ""
    ensures LeavesDebris(o, parts) <==> LeavesDebris(o[parts[0]].fields, parts[1..])
  {
    var child, rest := o[parts[0]].fields, parts[1..];
    forall n | 1 < n < |parts|
      ensures Named(parts[..n]) && Vacant(o, parts[..n]) <==> Named(rest[..n - 1]) && Vacant(child, rest[..n - 1])
    {
      VacantDown(o, parts, n);
      assert parts[..n] == [parts[0]] + rest[..n - 1];
    }
    if LeavesDebris(o, parts) {
      var n :| 0 < n < |parts| && parts[n] == "" && Named(parts[..n]) && Vacant(o, parts[..n]);
      ReadInto(o, parts, 1);
      assert rest[n - 1] == "";
    }
    if LeavesDebris(child, rest) {
      var n :| 0 < n < |rest| && rest[n] == "" && Named(rest[..n]) && Vacant(child, rest[..n]);
      assert parts[n + 1] == "" && rest[..n + 1 - 1] == rest[..n];
    }
  }

  lemma NothingBelow(o: Fields, parts: Path, n: nat)
    requires 0 < n <= |parts| && (parts[0] !in o || o[parts[0]].Null?)
    ensures !IsLeaf(o, parts[..n]) && Vacant(o, parts[..n])
  {
    forall m | 0 < m <= n ensures Read(o, parts[..n][..m]) in {None, Some(Null)} && parts[..n][..m] == parts[..m] {
      ReadInto(o, parts, m);
      assert parts[..n][..m] == parts[..m];
    }
    assert parts[..n][..n] == parts[..n];
  }

  lemma FirstEmpty(parts: Path) returns (n: nat)
    requires !Named(parts)
    ensures n < |parts| && parts[n] == "" && Named(parts[..n])
  {
    n := 0;
    while parts[n] != ""
      invariant n < |parts| && Named(parts[..n]) && exists k :: n <= k < |parts| && parts[k] == ""
      decreases |parts| - n
    {
      n := n + 1;
    }
  }

  // ---------- the walk ----------

  /** The object a path leads to. */
  function ObjectAt(o: Fields, path: Path): Option<Fields> {
    match Read(o, path)
    case Some(Object(fields)) => Some(fields)
    case _ => None
  }

  /** The tree with one object in it replaced, which is what an assignment to that object does in place. */
  function Replace(o: Fields, path: Path, with: Fields): Fields
    decreases |path|
  {
    if path == [] then with
    else if path[0] in o && o[path[0]].Object? then o[path[0] := Object(Replace(o[path[0]].fields, path[1..], with))]
    else o
  }

  lemma ObjectBelow(o: Fields, path: Path)
    requires path != [] && ObjectAt(o, path).Some?
    ensures path[0] in o && o[path[0]].Object? && ObjectAt(o, path) == ObjectAt(o[path[0]].fields, path[1..])
  {
    assert Read(o, path) == Get(o[path[0]], path[1..]);
    match o[path[0]]
    case Object(fields) => assert o[path[0]] == Object(fields);
    case _ =>
  }

  lemma {:induction false} ReplaceAt(o: Fields, path: Path, a: Fields, b: Fields)
    requires ObjectAt(o, path).Some?
    ensures ObjectAt(Replace(o, path, a), path) == Some(a)
    ensures Replace(Replace(o, path, a), path, b) == Replace(o, path, b)
    decreases |path|
  {
    if path != [] {
      ObjectBelow(o, path);
      ReplaceAt(o[path[0]].fields, path[1..], a, b);
    }
  }

  lemma {:induction false} ReplaceBySame(o: Fields, path: Path)
    requires ObjectAt(o, path).Some?
    ensures Replace(o, path, ObjectAt(o, path).value) == o
    decreases |path|
  {
    if path != [] {
      ObjectBelow(o, path);
      ReplaceBySame(o[path[0]].fields, path[1..]);
    }
  }

  lemma {:induction false} GetFurther(v: Value, path: Path, key: string)
    ensures Get(v, path + [key]) == if Get(v, path).Some? then Get(Get(v, path).value, [key]) else None
    decreases |path|
  {
    if path == [] {
      assert path + [key] == [key];
    } else if v.Object? && path[0] in v.fields {
      assert (path + [key])[1..] == path[1..] + [key];
      GetFurther(v.fields[path[0]], path[1..], key);
    }
  }

  lemma ReplaceBelow(o: Fields, path: Path, with: Fields)
    requires path != [] && path[0] in o && o[path[0]].Object?
    ensures Replace(o, path, with) == o[path[0] := Object(Replace(o[path[0]].fields, path[1..], with))]
  {
  }

  /** An edit of the tree is an edit of any object on its path. */
  lemma {:induction false} EditBelow(o: Fields, parts: Path, i: nat, value: Value)
    requires i < |parts| && Named(parts[..i]) && ObjectAt(o, parts[..i]).Some?
    ensures var (edited, outcome) := SetPath(ObjectAt(o, parts[..i]).value, parts[i..], value);
      SetPath(o, parts, value) == (Replace(o, parts[..i], edited), Shift(outcome, i))
    decreases |parts|
  {
    if i == 0 {
      assert parts[0..] == parts;
    } else {
      ObjectBelow(o, parts[..i]);
      assert parts[0] == parts[..i][0];
      assert parts[1..][..i - 1] == parts[..i][1..] && parts[1..][i - 1..] == parts[i..];
      EditInChild(o, parts, value);
      EditBelow(o[parts[0]].fields, parts[1..], i - 1, value);
      ReplaceBelow(o, parts[..i], SetPath(ObjectAt(o, parts[..i]).value, parts[i..], value).0);
    }
  }

  /** An object created under the first part is the one an edit would create. */
  lemma ChildKeepsEdit(o: Fields, parts: Path, value: Value)
    requires |parts| > 1 && parts[0] != "" && Child(o, parts[0]).Some?
    ensures SetPath(o[parts[0] := Object(Child(o, parts[0]).value)], parts, value) == SetPath(o, parts, value)
  {
    var more := o[parts[0] := Object(Child(o, parts[0]).value)];
    EditInChild(o, parts, value);
    EditInChild(more, parts, value);
    var edited := SetPath(Child(o, parts[0]).value, parts[1..], value).0;
    assert more[parts[0] := Object(edited)] == o[parts[0] := Object(edited)];
  }

  /** Creating a missing object on the way does not change where the edit ends. */
  lemma CreatingKeepsEdit(o: Fields, parts: Path, i: nat, value: Value)
    requires i + 1 < |parts| && Named(parts[..i + 1]) && ObjectAt(o, parts[..i]).Some?
    requires Child(ObjectAt(o, parts[..i]).value, parts[i]).Some?
    ensures var current := ObjectAt(o, parts[..i]).value;
      var more := current[parts[i] := Object(Child(current, parts[i]).value)];
      var created := Replace(o, parts[..i], more);
      SetPath(created, parts, value) == SetPath(o, parts, value) && ObjectAt(created, parts[..i]) == Some(more)
  {
    var current := ObjectAt(o, parts[..i]).value;
    var more := current[parts[i] := Object(Child(current, parts[i]).value)];
    assert parts[..i + 1] == parts[..i] + [parts[i]];
    assert parts[i] != "" by { assert parts[..i + 1][i] == parts[i]; }
    ChildKeepsEdit(current, parts[i..], value);
    ReplaceAt(o, parts[..i], more, SetPath(current, parts[i..], value).0);
    EditBelow(o, parts, i, value);
    EditBelow(Replace(o, parts[..i], more), parts, i, value);
  }

  /** Descending into an object that is there. */
  lemma Descends(o: Fields, parts: Path, i: nat)
    requires i < |parts| && ObjectAt(o, parts[..i]).Some?
    requires parts[i] in ObjectAt(o, parts[..i]).value && ObjectAt(o, parts[..i]).value[parts[i]].Object?
    ensures ObjectAt(o, parts[..i + 1]).Some?
  {
    assert parts[..i + 1] == parts[..i] + [parts[i]];
    GetFurther(Object(o), parts[..i], parts[i]);
  }

  datatype Error = EmptyPath | InvalidPath(path: string) | NotObject(path: string, at: string)

  function Reported(path: string, parts: Path, o: Outcome): Option<Error> {
    match o
    case Done => None
    case EmptyPart(at) => Some(if at == 0 then EmptyPath else InvalidPath(path))
    case NotAnObject(at) => Some(NotObject(path, Join(parts[..if at < |parts| then at + 1 else 0], '.')))
  }

  class Document {
    var root: Fields

    constructor (root: Fields)
      ensures this.root == root
    {
      this.root := root;
    }

    /** current[part] := value, for the object `current` the walk has reached along `at`. */
    method Assign(at: Path, part: string, value: Value)
      requires ObjectAt(root, at).Some?
      modifies this
      ensures root == Replace(old(root), at, ObjectAt(old(root), at).value[part := value])
    {
      root := Replace(root, at, ObjectAt(root, at).value[part := value]);
    }

    method SetConfigPath(path: string, value: Value) returns (err: Option<Error>)
      modifies this
      ensures root == SetPath(old(root), Split(path, '.'), value).0
      ensures err == Reported(path, Split(path, '.'), SetPath(old(root), Split(path, '.'), value).1)
    {
      var parts := Split(path, '.');
      if parts[0] == "" {
        return Some(EmptyPath);
      }
      for i := 0 to |parts| - 1
        invariant Named(parts[..i]) && ObjectAt(root, parts[..i]).Some?
        invariant SetPath(root, parts, value) == SetPath(old(root), parts, value)
      {
        var part, current := parts[i], ObjectAt(root, parts[..i]).value;
        EditBelow(root, parts, i, value);
        ReplaceBySame(root, parts[..i]);
        if part == "" {
          return Some(InvalidPath(path));
        }
        if part !in current || current[part] == Null {
          CreatingKeepsEdit(root, parts, i, value);
          Assign(parts[..i], part, Object(map[]));
          Descends(root, parts, i);
        } else if !current[part].Object? {
          return Some(NotObject(path, Join(parts[..i + 1], '.')));
        } else {
          Descends(root, parts, i);
        }
      }
      var at, last := parts[..|parts| - 1], parts[|parts| - 1];
      EditBelow(root, parts, |parts| - 1, value);
      ReplaceBySame(root, at);
      if last == "" {
        return Some(InvalidPath(path));
      }
      Assign(at, last, value);
      return None;
    }
  }

  // ---------- remediation steps ----------

  datatype StepType = EditConfig | ApplyOdigosAction | OtherType

  datatype RemediationStep = RemediationStep(kind: StepType, path: string, value: Value)

  datatype StepError = PathRequired | Edit(error: Error) | NotApplicable | UnknownType

  datatype ApplyError =
    ConfigIsNil | Marshal | UnmarshalMap | AtStep(index: nat, error: StepError) | MarshalPatched | NotValidConfig

  function Parts(step: RemediationStep): Path {
    Split(TrimSpace(step.path), '.')
  }

  function ApplyStep(data: Fields, step: RemediationStep): Result<Fields, StepError> {
    match step.kind
    case EditConfig =>
      if TrimSpace(step.path) == "" then Err(PathRequired)
      else
        var (edited, outcome) := SetPath(data, Parts(step), step.value);
        var failure := Reported(TrimSpace(step.path), Parts(step), outcome);
        if failure.None? then Ok(edited) else Err(Edit(failure.value))
    case ApplyOdigosAction => Err(NotApplicable)
    case OtherType => Err(UnknownType)
  }

  function ApplySteps(data: Fields, steps: seq<RemediationStep>): Result<Fields, ApplyError> {
    if steps == [] then Ok(data)
    else
      match ApplySteps(data, steps[..|steps| - 1])
      case Err(e) => Err(e)
      case Ok(before) =>
        match ApplyStep(before, steps[|steps| - 1])
        case Err(e) => Err(AtStep(|steps| - 1, e))
        case Ok(after) => Ok(after)
  }

  lemma ApplyStepIsEdit(data: Fields, step: RemediationStep)
    ensures ApplyStep(data, step).Ok? <==>
              step.kind.EditConfig? && TrimSpace(step.path) != "" && SetPath(data, Parts(step), step.value).1.Done?
    ensures ApplyStep(data, step).Ok? ==> ApplyStep(data, step).value == SetPath(data, Parts(step), step.value).0
  {
  }

  /** After all steps have succeeded, each path reads what the last step related to it wrote. */
  lemma {:induction false} StepsReadBack(data: Fields, steps: seq<RemediationStep>, i: nat)
    requires ApplySteps(data, steps).Ok? && i < |steps|
    requires forall j :: i < j < |steps| ==> Unrelated(Parts(steps[j]), Parts(steps[i]))
    ensures Read(ApplySteps(data, steps).value, Parts(steps[i])) == Some(steps[i].value)
  {
    var front, last := steps[..|steps| - 1], steps[|steps| - 1];
    var before := ApplySteps(data, front).value;
    ApplyStepIsEdit(before, last);
    if i == |steps| - 1 {
      ReadBack(before, Parts(last), last.value, []);
      assert Parts(last) + [] == Parts(last);
    } else {
      assert forall j :: i < j < |front| ==> Unrelated(Parts(front[j]), Parts(front[i]));
      StepsReadBack(data, front, i);
      OthersReadAsBefore(before, Parts(last), last.value, Parts(steps[i]));
    }
  }

  /** Two neighbouring steps at unrelated paths may be swapped: the same steps succeed with the same tree. */
  lemma SwapSteps(data: Fields, steps: seq<RemediationStep>, a: RemediationStep, b: RemediationStep)
    requires Unrelated(Parts(a), Parts(b))
    ensures ApplySteps(data, steps + [a, b]).Ok? <==> ApplySteps(data, steps + [b, a]).Ok?
    ensures ApplySteps(data, steps + [a, b]).Ok? ==>
        ApplySteps(data, steps + [a, b]) == ApplySteps(data, steps + [b, a])
  {
    ApplyTwo(data, steps, a, b);
    ApplyTwo(data, steps, b, a);
    if ApplySteps(data, steps).Ok? {
      var before := ApplySteps(data, steps).value;
      ApplyStepIsEdit(before, a);
      ApplyStepIsEdit(before, b);
      ApplyStepIsEdit(SetPath(before, Parts(a), a.value).0, b);
      ApplyStepIsEdit(SetPath(before, Parts(b), b.value).0, a);
      SuccessIsIndependent(before, Parts(a), a.value, Parts(b), b.value);
      SuccessIsIndependent(before, Parts(b), b.value, Parts(a), a.value);
      EditsCommute(before, Parts(a), a.value, Parts(b), b.value);
    }
  }

  lemma ApplyTwo(data: Fields, steps: seq<RemediationStep>, a: RemediationStep, b: RemediationStep)
    ensures ApplySteps(data, steps).Err? ==> ApplySteps(data, steps + [a, b]).Err?
    ensures ApplySteps(data, steps).Ok? ==>
              var first := ApplyStep(ApplySteps(data, steps).value, a);
              && (first.Err? ==> ApplySteps(data, steps + [a, b]).Err?)
              && (first.Ok? ==> var second := ApplyStep(first.value, b);
                   ApplySteps(data, steps + [a, b]).Ok? == second.Ok? &&
                   (second.Ok? ==> ApplySteps(data, steps + [a, b]).value == second.value))
  {
    assert (steps + [a, b])[..|steps| + 1] == steps + [a];
    assert (steps + [a])[..|steps|] == steps;
  }

  /** The codecs between a typed configuration, its YAML text and the tree of the text. */
  datatype Codec<!C> = Codec(
    marshal: C -> Option<string>,
    unmarshalMap: string -> Option<Option<Fields>>,
    marshalMap: Fields -> Option<string>,
    unmarshal: string -> Option<C>)

  /** The configuration after all the steps, or why there is none. */
  function Applied<C>(codec: Codec<C>, config: C, steps: seq<RemediationStep>): Result<C, ApplyError> {
    match codec.marshal(config)
    case None => Err(Marshal)
    case Some(raw) =>
      match codec.unmarshalMap(raw)
      case None => Err(UnmarshalMap)
      case Some(data) =>
        match ApplySteps(if data.Some? then data.value else map[], steps)
        case Err(e) => Err(e)
        case Ok(edited) =>
          match codec.marshalMap(edited)
          case None => Err(MarshalPatched)
          case Some(out) =>
            match codec.unmarshal(out)
            case None => Err(NotValidConfig)
            case Some(updated) => Ok(updated)
  }

  class Cell<C(!new)> {
    var config: C

    constructor (config: C)
      ensures this.config == config
    {
      this.config := config;
    }
  }

  /** Replaces the configuration when every step and every conversion succeeds, and otherwise keeps it. */
  method ApplyStepsToConfig<C(!new)>(codec: Codec<C>, cfg: Cell?<C>, steps: seq<RemediationStep>)
    returns (err: Option<ApplyError>)
    modifies cfg
    ensures cfg == null ==> err == Some(ConfigIsNil)
    ensures cfg != null ==>
              match Applied(codec, old(cfg.config), steps)
              case Ok(updated) => err == None && cfg.config == updated
              case Err(e) => err == Some(e) && cfg.config == old(cfg.config)
  {
    if cfg == null {
      return Some(ConfigIsNil);
    }
    var raw := codec.marshal(cfg.config);
    if raw.None? {
      return Some(Marshal);
    }
    var data := codec.unmarshalMap(raw.value);
    if data.None? {
      return Some(UnmarshalMap);
    }
    var tree: Fields := if data.value.Some? then data.value.value else map[];
    var edited := EditTree(tree, steps);
    if edited.Err? {
      return Some(edited.error);
    }
    var out := codec.marshalMap(edited.value);
    if out.None? {
      return Some(MarshalPatched);
    }
    var updated := codec.unmarshal(out.value);
    if updated.None? {
      return Some(NotValidConfig);
    }
    cfg.config := updated.value;
    return None;
  }

  /** The loop over the steps, editing one tree in place. */
  method EditTree(tree: Fields, steps: seq<RemediationStep>) returns (r: Result<Fields, ApplyError>)
    ensures r == ApplySteps(tree, steps)
  {
    var data := new Document(tree);
    for i := 0 to |steps|
      invariant ApplySteps(tree, steps[..i]) == Ok(data.root)
    {
      assert steps[..i + 1][..i] == steps[..i];
      var err := ApplyTo(data, steps[i]);
      if err.Some? {
        StopsAt(tree, steps, i);
        return Err(AtStep(i, err.value));
      }
    }
    assert steps[..|steps|] == steps;
    return Ok(data.root);
  }

  /** A step that fails decides the result, whatever comes after. */
  lemma StopsAt(tree: Fields, steps: seq<RemediationStep>, i: nat)
    requires i < |steps| && ApplySteps(tree, steps[..i + 1]).Err?
    ensures ApplySteps(tree, steps) == ApplySteps(tree, steps[..i + 1])
    decreases |steps|
  {
    if i + 1 == |steps| {
      assert steps[..i + 1] == steps;
    } else {
      var front := steps[..|steps| - 1];
      assert front[..i + 1] == steps[..i + 1];
      StopsAt(tree, front, i);
    }
  }

  method ApplyTo(data: Document, step: RemediationStep) returns (err: Option<StepError>)
    modifies data
    ensures match ApplyStep(old(data.root), step)
            case Ok(after) => err == None && data.root == after
            case Err(e) => err == Some(e)
  {
    match step.kind
    case EditConfig =>
      var path := TrimSpace(step.path);
      if path == "" {
        return Some(PathRequired);
      }
      var e := data.SetConfigPath(path, step.value);
      return if e.Some? then Some(Edit(e.value)) else None;
    case ApplyOdigosAction =>
      return Some(NotApplicable);
    case OtherType =>
      return Some(UnknownType);
  }
}
