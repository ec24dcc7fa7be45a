/**
 Picking the slot to evict (`common/profilecache/store.go`, evictOldestSlotLocked). The scan walks the
 slots in an arbitrary order and uses the empty key to mean "none yet", which is right exactly as long
 as the empty key itself is not the one to be evicted.
 */
module ProfileEviction {
  import opened Wrappers
  import opened ProfileBuffer

  type Key = string

  /** The candidate after walking `order`; the empty key stands for none. */
  function Scan(order: seq<Key>, times: map<Key, Time>): Key
    requires forall k :: k in order ==> k in times
  {
    if order == [] then ""
    else
      var oldest, k := Scan(order[..|order| - 1], times), order[|order| - 1];
      if oldest == "" || (oldest in times && times[k] < times[oldest]) then k else oldest
  }

  /** No slot was requested before this one. */
  ghost predicate LeastRecent(times: map<Key, Time>, k: Key) {
    k in times && forall j :: j in times ==> times[k] <= times[j]
  }

  /** The empty key names a slot, and every other slot was requested after it. */
  ghost predicate Hidden(times: map<Key, Time>) {
    "" in times && forall k :: k in times && k != "" ==> times[""] < times[k]
  }

  lemma {:induction false} ScanPicksKey(order: seq<Key>, times: map<Key, Time>)
    requires forall k :: k in order ==> k in times
    ensures Scan(order, times) == "" || Scan(order, times) in order
    ensures order != [] && "" !in order ==> Scan(order, times) != ""
  {
    if order != [] {
      var front, k := order[..|order| - 1], order[|order| - 1];
      Extend(front, k);
      assert order == front + [k];
      ScanPicksKey(front, times);
      var oldest, r := Scan(front, times), Scan(order, times);
      assert r == k || r == oldest;
    }
  }

  /** A scan that meets a non-empty key of the least time ends on one. */
  lemma {:induction false} ScanFindsLeast(order: seq<Key>, times: map<Key, Time>, least: Time)
    requires forall k :: k in order ==> k in times && least <= times[k]
    requires exists k :: k in order && k != "" && times[k] == least
    ensures var r := Scan(order, times); r != "" && r in times && times[r] == least
  {
    var front, last := order[..|order| - 1], order[|order| - 1];
    assert order == front + [last];
    assert last in order;
    ScanPicksKey(front, times);
    if k :| k in front && k != "" && times[k] == least {
      ScanFindsLeast(front, times, least);
    } else {
      assert last != "" && times[last] == least;
      var c := Scan(front, times);
      if c != "" {
        assert c in front && times[c] != least;
      }
    }
  }

  lemma {:induction false} LeastExists(order: seq<Key>, times: map<Key, Time>)
    requires order != [] && forall k :: k in order ==> k in times
    ensures exists m :: m in order && forall k :: k in order ==> times[m] <= times[k]
  {
    var first, rest := order[0], order[1..];
    assert order == [first] + rest && first in order;
    if rest != [] {
      LeastExists(rest, times);
      var m :| m in rest && forall k :: k in rest ==> times[m] <= times[k];
      var best := if times[first] < times[m] then first else m;
      assert best in order;
    }
  }

  /**
   Whatever the order of the walk, a least recently requested slot is evicted if and only if there is
   a slot at all and the empty key does not name the only least recently requested one.
   */
  lemma EvictsLeastRecent(order: seq<Key>, times: map<Key, Time>)
    requires Elements(order) == times.Keys
    requires forall k :: k in order ==> k in times
    ensures Scan(order, times) != "" && LeastRecent(times, Scan(order, times)) <==> times != map[] && !Hidden(times)
  {
    assert forall k :: k in times <==> k in Elements(order);
    ScanPicksKey(order, times);
    if times != map[] && !Hidden(times) {
      var some :| some in times;
      assert some in order;
      LeastExists(order, times);
      var m :| m in order && forall k :: k in order ==> times[m] <= times[k];
      if m == "" {
        var k :| k in times && k != "" && times[k] <= times[""];
        assert times[k] == times[m];
      }
      ScanFindsLeast(order, times, times[m]);
    }
  }

  /** Without an empty key, only an empty cache has nothing to evict. */
  lemma EvictsSomething(order: seq<Key>, times: map<Key, Time>)
    requires Elements(order) == times.Keys && "" !in times
    requires forall k :: k in order ==> k in times
    ensures Scan(order, times) == "" <==> times == map[]
    ensures times != map[] ==> LeastRecent(times, Scan(order, times))
  {
    EvictsLeastRecent(order, times);
    ScanPicksKey(order, times);
  }
}
