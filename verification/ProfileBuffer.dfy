/**
 The byte-budgeted queue of profile chunks (`common/profilecache/buffer.go`). The functions say what the
 buffer holds; the class keeps it as a window of a backing array that is appended to, zeroed and
 compacted in place.
 */
module ProfileBuffer {
  import opened Wrappers

  type Time = int

  /** The zero value of a time stamp. */
  const ZERO_TIME: Time := 0

  type Bytes = seq<bv8>

  datatype Chunk = Chunk(capturedAt: Time, bytes: Bytes)

  const EMPTY_CHUNK := Chunk(ZERO_TIME, [])

  const COMPACT_THRESHOLD := 2

  function Total(chunks: seq<Chunk>): nat {
    if chunks == [] then 0 else |chunks[0].bytes| + Total(chunks[1..])
  }

  /** Drops the oldest chunks until the rest fits; a budget that is not positive is no budget. */
  function Trim(chunks: seq<Chunk>, maxBytes: int): seq<Chunk> {
    if chunks != [] && maxBytes > 0 && Total(chunks) > maxBytes then Trim(chunks[1..], maxBytes) else chunks
  }

  /** A chunk that is dropped on arrival: empty, or larger than the whole budget. */
  predicate Refused(bytes: Bytes, maxBytes: int) {
    bytes == [] || (maxBytes > 0 && |bytes| > maxBytes)
  }

  function Accept(live: seq<Chunk>, c: Chunk, maxBytes: int): seq<Chunk> {
    if Refused(c.bytes, maxBytes) then live else Trim(live + [c], maxBytes)
  }

  // ---------- totals and trimming ----------

  lemma {:induction false} TotalConcat(a: seq<Chunk>, b: seq<Chunk>)
    ensures Total(a + b) == Total(a) + Total(b)
  {
    if a == [] {
      assert a + b == b;
    } else {
      TotalConcat(a[1..], b);
      assert (a + b)[1..] == a[1..] + b;
    }
  }

  /** `live` is the longest suffix of `all` that fits the budget. */
  ghost predicate LongestFit(all: seq<Chunk>, live: seq<Chunk>, maxBytes: int) {
    && |live| <= |all| && live == all[|all| - |live|..]
    && Total(live) <= maxBytes
    && forall k :: 0 <= k < |all| - |live| ==> Total(all[k..]) > maxBytes
  }

  lemma LongestFitUnique(all: seq<Chunk>, a: seq<Chunk>, b: seq<Chunk>, maxBytes: int)
    requires LongestFit(all, a, maxBytes) && LongestFit(all, b, maxBytes)
    ensures a == b
  {
  }

  lemma {:induction false} TrimIsLongestFit(chunks: seq<Chunk>, maxBytes: int)
    requires maxBytes > 0
    ensures LongestFit(chunks, Trim(chunks, maxBytes), maxBytes)
  {
    if Total(chunks) > maxBytes {
      var rest := chunks[1..];
      TrimIsLongestFit(rest, maxBytes);
      forall k | 0 <= k < |chunks| - |Trim(rest, maxBytes)| ensures Total(chunks[k..]) > maxBytes {
        if k == 0 {
          assert chunks[0..] == chunks;
        } else {
          assert chunks[k..] == rest[k - 1..];
        }
      }
    } else {
      assert chunks[0..] == chunks;
    }
  }

  /** Trimming after each chunk keeps what trimming once at the end keeps. */
  lemma LongestFitExtends(all: seq<Chunk>, live: seq<Chunk>, c: Chunk, maxBytes: int)
    requires maxBytes > 0 && LongestFit(all, live, maxBytes)
    ensures LongestFit(all + [c], Trim(live + [c], maxBytes), maxBytes)
  {
    var more, kept := all + [c], Trim(live + [c], maxBytes);
    var cut := |all| - |live|;
    TrimIsLongestFit(live + [c], maxBytes);
    assert more[cut..] == live + [c];
    forall k | 0 <= k < |more| - |kept| ensures Total(more[k..]) > maxBytes {
      SuffixOfMore(all, live, c, k);
      if k < cut {
        TotalConcat(all[k..], [c]);
      }
    }
    SuffixOfMore(all, live, c, |more| - |kept|);
  }

  lemma SuffixOfMore(all: seq<Chunk>, live: seq<Chunk>, c: Chunk, k: nat)
    requires |live| <= |all| && live == all[|all| - |live|..] && k <= |all| + 1
    ensures (all + [c])[k..] == if k < |all| - |live| then all[k..] + [c] else (live + [c])[k - (|all| - |live|)..]
  {
  }

  /** A chunk that is not refused is never evicted by its own arrival. */
  lemma {:induction false} AcceptedStays(live: seq<Chunk>, c: Chunk, maxBytes: int)
    requires !Refused(c.bytes, maxBytes)
    ensures var kept := Trim(live + [c], maxBytes); kept != [] && kept[|kept| - 1] == c
  {
    if live == [] {
      assert live + [c] == [c];
      assert [c][1..] == [] && Total([c]) == |c.bytes|;
    } else {
      assert (live + [c])[1..] == live[1..] + [c];
      AcceptedStays(live[1..], c, maxBytes);
    }
  }

  ghost predicate NoneEmpty(chunks: seq<Chunk>) {
    forall k :: 0 <= k < |chunks| ==> chunks[k].bytes != []
  }

  lemma NoneEmptyAfter(live: seq<Chunk>, c: Chunk, maxBytes: int)
    requires NoneEmpty(live)
    ensures NoneEmpty(Trim(live, maxBytes))
    ensures c.bytes != [] ==> NoneEmpty(live + [c])
  {
  }

  lemma {:induction false} TrimIsSuffix(chunks: seq<Chunk>, maxBytes: int)
    ensures var kept := Trim(chunks, maxBytes);
      && |kept| <= |chunks| && kept == chunks[|chunks| - |kept|..]
      && (maxBytes > 0 ==> Total(kept) <= maxBytes)
      && (Total(chunks) <= maxBytes || maxBytes <= 0 ==> kept == chunks)
  {
    if chunks != [] && maxBytes > 0 && Total(chunks) > maxBytes {
      TrimIsSuffix(chunks[1..], maxBytes);
    }
  }

  lemma {:induction false} TrimFits(chunks: seq<Chunk>, maxBytes: int)
    requires maxBytes > 0
    ensures Total(Trim(chunks, maxBytes)) <= maxBytes
  {
    TrimIsSuffix(chunks, maxBytes);
  }

  /** What fits the budget still fits it after a chunk has arrived. */
  lemma {:induction false} AcceptFits(live: seq<Chunk>, c: Chunk, maxBytes: int)
    requires maxBytes > 0 && Total(live) <= maxBytes
    ensures Total(Accept(live, c, maxBytes)) <= maxBytes
  {
    if !Refused(c.bytes, maxBytes) {
      var more := live + [c];
      assert Accept(live, c, maxBytes) == Trim(more, maxBytes);
      TrimFits(more, maxBytes);
    }
  }

  /** The totals of all suffixes. */
  ghost function Sums(chunks: seq<Chunk>): seq<nat> {
    seq(|chunks| + 1, k requires 0 <= k <= |chunks| => Total(chunks[k..]))
  }

  /** The first suffix that fits starts at the cut. */
  ghost predicate CutAt(sums: seq<nat>, cut: nat, maxBytes: int) {
    && cut < |sums|
    && (maxBytes <= 0 ==> cut == 0)
    && (maxBytes > 0 ==> sums[cut] <= maxBytes && forall k :: 0 <= k < cut ==> sums[k] > maxBytes)
  }

  lemma TrimCut(chunks: seq<Chunk>, maxBytes: int)
    ensures var cut, sums := |chunks| - |Trim(chunks, maxBytes)|, Sums(chunks);
      && 0 <= cut && Trim(chunks, maxBytes) == chunks[cut..] && CutAt(sums, cut, maxBytes)
      && sums[0] == Total(chunks) && sums[cut] == Total(Trim(chunks, maxBytes))
      && forall k :: 0 <= k < |chunks| ==> sums[k] == |chunks[k].bytes| + sums[k + 1]
  {
    TrimIsSuffix(chunks, maxBytes);
    TrimIsCut(chunks, maxBytes);
    SumsDescend(chunks);
    assert chunks[0..] == chunks;
    SumsAre(chunks, 0);
    SumsAre(chunks, |chunks| - |Trim(chunks, maxBytes)|);
  }

  lemma TrimIsCut(chunks: seq<Chunk>, maxBytes: int)
    requires |Trim(chunks, maxBytes)| <= |chunks|
    ensures CutAt(Sums(chunks), |chunks| - |Trim(chunks, maxBytes)|, maxBytes)
  {
    var cut := |chunks| - |Trim(chunks, maxBytes)|;
    if maxBytes > 0 {
      TrimIsLongestFit(chunks, maxBytes);
      SumsAre(chunks, cut);
      forall k | 0 <= k < cut ensures Sums(chunks)[k] > maxBytes {
        SumsAre(chunks, k);
      }
    }
  }

  lemma SumsAre(chunks: seq<Chunk>, k: nat)
    requires k <= |chunks|
    ensures Sums(chunks)[k] == Total(chunks[k..])
  {
  }

  lemma SumsDescend(chunks: seq<Chunk>)
    ensures forall k :: 0 <= k < |chunks| ==> Sums(chunks)[k] == |chunks[k].bytes| + Sums(chunks)[k + 1]
  {
    forall k | 0 <= k < |chunks| ensures Total(chunks[k..]) == |chunks[k].bytes| + Total(chunks[k + 1..]) {
      assert chunks[k..][1..] == chunks[k + 1..];
    }
  }

  // ---------- any sequence of additions ----------

  function Online(adds: seq<Chunk>, maxBytes: int): seq<Chunk> {
    if adds == [] then [] else Accept(Online(adds[..|adds| - 1], maxBytes), adds[|adds| - 1], maxBytes)
  }

  /** The chunks of a sequence of additions that are not refused. */
  function Accepted(adds: seq<Chunk>, maxBytes: int): seq<Chunk> {
    if adds == [] then []
    else
      var last := adds[|adds| - 1];
      Accepted(adds[..|adds| - 1], maxBytes) + if Refused(last.bytes, maxBytes) then [] else [last]
  }

  /**
   At a fixed positive budget, evicting as chunks arrive leaves exactly the longest suffix of the
   accepted chunks that fits.
   */
  lemma {:induction false} OnlineIsOffline(adds: seq<Chunk>, maxBytes: int)
    requires maxBytes > 0
    ensures LongestFit(Accepted(adds, maxBytes), Online(adds, maxBytes), maxBytes)
  {
    if adds != [] {
      var front, last := adds[..|adds| - 1], adds[|adds| - 1];
      OnlineIsOffline(front, maxBytes);
      if Refused(last.bytes, maxBytes) {
        assert Accepted(front, maxBytes) + [] == Accepted(front, maxBytes);
      } else {
        LongestFitExtends(Accepted(front, maxBytes), Online(front, maxBytes), last, maxBytes);
      }
    }
  }

  /** Without a positive budget nothing but empty chunks is ever dropped. */
  lemma {:induction false} NoBudgetKeepsAll(adds: seq<Chunk>, maxBytes: int)
    requires maxBytes <= 0
    ensures Online(adds, maxBytes) == Accepted(adds, maxBytes)
  {
    if adds != [] {
      NoBudgetKeepsAll(adds[..|adds| - 1], maxBytes);
    }
  }

  // ---------- snapshots ----------

  /** The bytes of the live chunks captured at `since` or later. */
  function BytesSince(chunks: seq<Chunk>, since: Time): seq<Bytes> {
    if chunks == [] then []
    else
      var last := chunks[|chunks| - 1];
      BytesSince(chunks[..|chunks| - 1], since) +
      if last.bytes == [] || last.capturedAt < since then [] else [last.bytes]
  }

  /** A snapshot returns every chunk iff none was stamped before the zero time. */
  lemma {:induction false} SnapshotIsComplete(chunks: seq<Chunk>, since: Time)
    requires forall c :: c in chunks ==> c.bytes != []
    ensures |BytesSince(chunks, since)| <= |chunks|
    ensures |BytesSince(chunks, since)| == |chunks| <==> forall c :: c in chunks ==> c.capturedAt >= since
    ensures |BytesSince(chunks, since)| == |chunks| ==>
              forall k :: 0 <= k < |chunks| ==> BytesSince(chunks, since)[k] == chunks[k].bytes
  {
    if chunks != [] {
      var front, last := chunks[..|chunks| - 1], chunks[|chunks| - 1];
      assert chunks == front + [last];
      SnapshotIsComplete(front, since);
    }
  }

  // ---------- the buffer ----------

  function Max(a: int, b: int): int { if a < b then b else a }

  class BoundedBuffer {
    // The slice of chunks is data[start..start + len]; what lies behind it is spare capacity.
    var data: array<Chunk>
    var start: nat
    var len: nat
    var totalBytes: int
    var maxBytes: int
    var addedTotal: nat
    var evictedTotal: nat
    ghost var clearedTotal: nat

    /** Everything but the budget, which does not hold yet while trimming. */
    ghost predicate Sound()
      reads this, data
    {
      && start + len <= data.Length
      && totalBytes == Total(Live())
      && NoneEmpty(Live())
    }

    ghost predicate Valid()
      reads this, data
    {
      && Sound()
      && (maxBytes > 0 ==> totalBytes <= maxBytes)
      && addedTotal == evictedTotal + clearedTotal + len
    }

    ghost function Live(): seq<Chunk>
      reads this, data
      requires start + len <= data.Length
    {
      data[start..start + len]
    }

    function Capacity(): int
      reads this
    {
      data.Length - start
    }

    constructor (maxBytes: int)
      ensures Valid() && fresh(data) && Live() == [] && this.maxBytes == maxBytes
      ensures addedTotal == evictedTotal == clearedTotal == 0
    {
      this.maxBytes := maxBytes;
      data := new Chunk[0];
      start, len, totalBytes, addedTotal, evictedTotal, clearedTotal := 0, 0, 0, 0, 0, 0;
    }

    /** Go's append: in place while there is spare capacity, into a larger array otherwise. */
    method Append(c: Chunk, slack: nat)
      requires start + len <= data.Length
      modifies this`data, this`start, this`len, data
      ensures data == old(data) || fresh(data)
      ensures len == old(len) + 1
      ensures start + len <= data.Length && Live() == old(Live()) + [c]
    {
      if start + len < data.Length {
        data[start + len] := c;
      } else {
        var grown := new Chunk[len + 1 + slack];
        forall k | 0 <= k < len {
          grown[k] := data[start + k];
        }
        grown[len] := c;
        data, start := grown, 0;
      }
      len := len + 1;
      assert Live()[..len - 1] == old(Live());
    }

    /**
     Stores a chunk; false only when it can never fit. `slack` is the spare capacity an append that
     has to reallocate happens to leave.
     */
    method AddAt(capturedAt: Time, bytes: Bytes, slack: nat) returns (ok: bool)
      requires Valid()
      modifies this, data
      ensures Valid() && maxBytes == old(maxBytes) && (data == old(data) || fresh(data))
      ensures ok <==> bytes == [] || !Refused(bytes, maxBytes)
      ensures Live() == Accept(old(Live()), Chunk(capturedAt, bytes), maxBytes)
      ensures addedTotal == old(addedTotal) + if Refused(bytes, maxBytes) then 0 else 1
      ensures clearedTotal == old(clearedTotal)
      ensures evictedTotal > old(evictedTotal) ==> Capacity() <= Max(16, COMPACT_THRESHOLD * len)
    {
      if |bytes| == 0 {
        return true;
      }
      if maxBytes > 0 && |bytes| > maxBytes {
        return false;
      }
      Count(Chunk(capturedAt, bytes), slack);
      TrimLocked();
      return true;
    }

    /** Appends a chunk and counts it, whether or not it fits. */
    method Count(c: Chunk, slack: nat)
      requires Sound() && c.bytes != []
      modifies this`data, this`start, this`len, this`totalBytes, this`addedTotal, data
      ensures Sound() && (data == old(data) || fresh(data))
      ensures Live() == old(Live()) + [c] && len == old(len) + 1 && addedTotal == old(addedTotal) + 1
    {
      ghost var before := Live();
      Append(c, slack);
      TotalConcat(before, [c]);
      NoneEmptyAfter(before, c, maxBytes);
      assert Total([c]) == |c.bytes|;
      totalBytes := totalBytes + |c.bytes|;
      addedTotal := addedTotal + 1;
    }

    method Resize(newMaxBytes: int)
      requires Valid()
      modifies this, data
      ensures Valid() && maxBytes == newMaxBytes && (data == old(data) || fresh(data))
      ensures Live() == Trim(old(Live()), newMaxBytes)
      ensures addedTotal == old(addedTotal) && clearedTotal == old(clearedTotal)
      ensures evictedTotal > old(evictedTotal) ==> Capacity() <= Max(16, COMPACT_THRESHOLD * len)
    {
      maxBytes := newMaxBytes;
      TrimLocked();
    }

    /**
     Evicts the oldest chunks until the rest fits, zeroes what it evicted, and moves the rest to an
     array of its own when the old one has become too large for it. None of this shows in the live
     chunks beyond the ones dropped from the front.
     */
    method TrimLocked()
      requires Sound() && addedTotal == evictedTotal + clearedTotal + len
      modifies this`data, this`start, this`len, this`totalBytes, this`evictedTotal, data
      ensures Valid() && (data == old(data) || fresh(data))
      ensures Live() == Trim(old(Live()), maxBytes)
      ensures evictedTotal == old(evictedTotal) + (old(len) - len)
      ensures forall k :: old(start) <= k < old(start) + (old(len) - len) ==> old(data)[k] == EMPTY_CHUNK
      ensures evictedTotal > old(evictedTotal) ==> Capacity() <= Max(16, COMPACT_THRESHOLD * len)
    {
      ghost var all := Live();
      TrimCut(all, maxBytes);
      NoneEmptyAfter(all, EMPTY_CHUNK, maxBytes);
      TrimAt(all, Sums(all), |all| - |Trim(all, maxBytes)|);
    }

    /** The body of trimLocked, with the place where the eviction stops known beforehand. */
    method TrimAt(ghost all: seq<Chunk>, ghost sums: seq<nat>, ghost cut: nat)
      requires start + len <= data.Length && Live() == all && |sums| == len + 1
      requires forall k :: 0 <= k < len ==> sums[k] == |all[k].bytes| + sums[k + 1]
      requires totalBytes == sums[0] && CutAt(sums, cut, maxBytes)
      modifies this`data, this`start, this`len, this`totalBytes, this`evictedTotal, data
      ensures start + len <= data.Length && (data == old(data) || fresh(data))
      ensures Live() == all[cut..] && totalBytes == sums[cut]
      ensures evictedTotal == old(evictedTotal) + cut
      ensures forall k :: old(start) <= k < old(start) + cut ==> old(data)[k] == EMPTY_CHUNK
      ensures cut > 0 ==> Capacity() <= Max(16, COMPACT_THRESHOLD * len)
    {
      assert forall k :: start <= k < start + len ==> data[k] == Live()[k - start];
      var dropped := EvictOldest(all, sums, cut);
      if dropped == 0 {
        assert Live() == all;
        assert all == all[0..];
        return;
      }
      evictedTotal := evictedTotal + dropped;
      Release(dropped, all);
    }

    /** The loop of trimLocked: zeroes the oldest chunks until the total fits, which is at the cut. */
    method EvictOldest(ghost all: seq<Chunk>, ghost sums: seq<nat>, ghost cut: nat) returns (dropped: nat)
      requires start + len <= data.Length && |all| == len && |sums| == len + 1
      requires forall k :: 0 <= k < len ==> sums[k] == |all[k].bytes| + sums[k + 1]
      requires forall k :: start <= k < start + len ==> data[k] == all[k - start]
      requires totalBytes == sums[0] && CutAt(sums, cut, maxBytes)
      modifies this`totalBytes, data
      ensures dropped == cut && totalBytes == sums[cut]
      ensures forall k :: start + cut <= k < start + len ==> data[k] == all[k - start]
      ensures forall k :: start <= k < start + cut ==> data[k] == EMPTY_CHUNK
    {
      dropped := 0;
      while dropped < len && maxBytes > 0 && totalBytes > maxBytes
        invariant dropped <= cut && totalBytes == sums[dropped]
        invariant forall k :: start + dropped <= k < start + len ==> data[k] == all[k - start]
        invariant forall k :: start <= k < start + dropped ==> data[k] == EMPTY_CHUNK
      {
        totalBytes := totalBytes - |data[start + dropped].bytes|;
        data[start + dropped] := EMPTY_CHUNK;
        dropped := dropped + 1;
      }
    }

    /** Gives up the evicted prefix, by moving the live chunks if the array is too large for them. */
    method Release(dropped: nat, ghost all: seq<Chunk>)
      requires 0 < dropped <= len && start + len <= data.Length && |all| == len
      requires forall k :: start + dropped <= k < start + len ==> data[k] == all[k - start]
      modifies this`data, this`start, this`len
      ensures start + len <= data.Length && len == old(len) - dropped
      ensures data == old(data) || fresh(data)
      ensures Live() == all[dropped..]
      ensures Capacity() <= Max(16, COMPACT_THRESHOLD * len)
    {
      var live := len - dropped;
      if Capacity() >= COMPACT_THRESHOLD * live && Capacity() > 16 {
        var compact := new Chunk[live];
        forall k | 0 <= k < live {
          compact[k] := data[start + dropped + k];
        }
        data, start := compact, 0;
      } else {
        start := start + dropped;
      }
      len := live;
      assert forall k :: 0 <= k < live ==> Live()[k] == all[dropped..][k];
      assert Live() == all[dropped..];
    }

    method SnapshotSince(since: Time) returns (out: seq<Bytes>)
      requires Valid()
      ensures out == BytesSince(Live(), since)
    {
      out := [];
      for k := 0 to len
        invariant out == BytesSince(data[start..start + k], since)
      {
        var c := data[start + k];
        assert data[start..start + k + 1] == data[start..start + k] + [c];
        if |c.bytes| == 0 || c.capturedAt < since {
          continue;
        }
        out := out + [c.bytes];
      }
    }

    method Snapshot() returns (out: seq<Bytes>)
      requires Valid()
      ensures out == BytesSince(Live(), ZERO_TIME)
    {
      out := SnapshotSince(ZERO_TIME);
    }

    method Clear()
      requires Valid()
      modifies this
      ensures Valid() && Live() == [] && maxBytes == old(maxBytes) && fresh(data)
      ensures addedTotal == old(addedTotal) && evictedTotal == old(evictedTotal)
      ensures clearedTotal == old(clearedTotal) + old(len)
    {
      clearedTotal := clearedTotal + len;
      data := new Chunk[0];
      start, len, totalBytes := 0, 0, 0;
    }

    method Size() returns (n: int)
      requires Valid()
      ensures n == Total(Live()) && (maxBytes > 0 ==> n <= maxBytes)
    {
      n := totalBytes;
    }
  }
}
