/** How processChunks (transfer.go) cuts a file: the arithmetic of its dispatch loop. */
module Chunks {
  /** A half-open range of a file. */
  datatype Chunk = Chunk(off: nat, size: nat) {
    function End(): nat {
      off + size
    }

    predicate Contains(p: int) {
      off <= p < off + size
    }
  }

  /** The ranges the loop visits, starting at `off`. */
  function Tiles(off: nat, fileSize: nat, chunkSize: nat): seq<Chunk>
    requires chunkSize > 0
    decreases fileSize - off
  {
    if off >= fileSize then []
    else
      var size := if fileSize - off < chunkSize then fileSize - off else chunkSize;
      [Chunk(off, size)] + Tiles(off + size, fileSize, chunkSize)
  }

  /** Consecutive ranges covering [from, to) and nothing else, each neither empty nor longer than chunkSize. */
  ghost predicate Partition(ts: seq<Chunk>, from: nat, to: nat, chunkSize: nat) {
    && (ts == [] ==> from >= to)
    && (ts != [] ==> ts[0].off == from && ts[|ts| - 1].End() == to)
    && (forall i | 0 <= i < |ts| - 1 :: ts[i].End() == ts[i + 1].off)
    && (forall i | 0 <= i < |ts| :: 0 < ts[i].size <= chunkSize)
  }

  lemma {:induction false} TilesPartition(off: nat, fileSize: nat, chunkSize: nat)
    requires chunkSize > 0
    ensures Partition(Tiles(off, fileSize, chunkSize), off, fileSize, chunkSize)
    decreases fileSize - off
  {
    if off < fileSize {
      var size := if fileSize - off < chunkSize then fileSize - off else chunkSize;
      TilesPartition(off + size, fileSize, chunkSize);
      var rest := Tiles(off + size, fileSize, chunkSize);
      assert Tiles(off, fileSize, chunkSize) == [Chunk(off, size)] + rest;
    }
  }

  /** Offsets grow along a partition, so ranges at different places do not meet and none passes the end. */
  lemma {:induction false} PartitionOrdered(ts: seq<Chunk>, from: nat, to: nat, chunkSize: nat, i: nat, j: nat)
    requires Partition(ts, from, to, chunkSize) && i <= j < |ts|
    ensures from <= ts[i].off && ts[j].End() <= to
    ensures i < j ==> ts[i].End() <= ts[j].off
    decreases j, |ts| - j, i
  {
    if i > 0 {
      PartitionOrdered(ts, from, to, chunkSize, 0, i);
    }
    if i < j {
      PartitionOrdered(ts, from, to, chunkSize, i, j - 1);
    }
    PartitionEnds(ts, from, to, chunkSize, j);
  }

  lemma {:induction false} PartitionEnds(ts: seq<Chunk>, from: nat, to: nat, chunkSize: nat, j: nat)
    requires Partition(ts, from, to, chunkSize) && j < |ts|
    ensures ts[j].End() <= to
    decreases |ts| - j
  {
    if j + 1 < |ts| {
      PartitionEnds(ts, from, to, chunkSize, j + 1);
    }
  }

  /** Every position is in exactly one range. */
  lemma {:induction false} PartitionCovers(ts: seq<Chunk>, from: nat, to: nat, chunkSize: nat, p: int)
    requires Partition(ts, from, to, chunkSize) && from <= p < to
    ensures exists i :: 0 <= i < |ts| && ts[i].Contains(p)
    ensures forall i, j :: 0 <= i < |ts| && 0 <= j < |ts| && ts[i].Contains(p) && ts[j].Contains(p) ==> i == j
  {
    var i := FindRange(ts, from, to, chunkSize, p, |ts| - 1);
    forall i, j | 0 <= i < |ts| && 0 <= j < |ts| && ts[i].Contains(p) && ts[j].Contains(p)
      ensures i == j
    {
      if i < j {
        PartitionOrdered(ts, from, to, chunkSize, i, j);
      } else if j < i {
        PartitionOrdered(ts, from, to, chunkSize, j, i);
      }
    }
  }

  lemma {:induction false} FindRange(ts: seq<Chunk>, from: nat, to: nat, chunkSize: nat, p: int,
                        k: nat) returns (i: nat)
    requires Partition(ts, from, to, chunkSize) && k < |ts| && from <= p < ts[k].End()
    ensures i < |ts| && ts[i].Contains(p)
  {
    if ts[k].off <= p {
      i := k;
    } else {
      i := FindRange(ts, from, to, chunkSize, p, k - 1);
    }
  }

  /** The loop runs ceil((fileSize - off) / chunkSize) times, and its k-th offset is off + k * chunkSize. */
  lemma {:induction false} TilesCount(off: nat, fileSize: nat, chunkSize: nat)
    requires chunkSize > 0 && off <= fileSize
    ensures |Tiles(off, fileSize, chunkSize)| == (fileSize - off + chunkSize - 1) / chunkSize
    decreases fileSize - off
  {
    if off < fileSize {
      var size := if fileSize - off < chunkSize then fileSize - off else chunkSize;
      TilesCount(off + size, fileSize, chunkSize);
      var n := fileSize - off;
      if n < chunkSize {
        DivOne(n + chunkSize - 1, chunkSize);
        DivZero(chunkSize - 1, chunkSize);
      } else {
        DivStep(n - 1, chunkSize);
      }
    } else {
      DivZero(chunkSize - 1, chunkSize);
    }
  }

  lemma DivStep(n: nat, d: nat)
    requires d > 0
    ensures (n + d) / d == n / d + 1
  {
    var q, r := n / d, n % d;
    assert n + d == (q + 1) * d + r;
    DivUnique(n + d, d, q + 1, r);
  }

  lemma DivZero(n: nat, d: nat)
    requires n < d
    ensures n / d == 0
  {
  }

  lemma DivOne(n: nat, d: nat)
    requires d <= n < 2 * d
    ensures n / d == 1
  {
    DivUnique(n, d, 1, n - d);
  }

  lemma DivUnique(n: nat, d: nat, q: nat, r: nat)
    requires d > 0 && n == q * d + r && r < d
    ensures n / d == q
  {
    var q', r' := n / d, n % d;
    assert n == q' * d + r';
    if q' < q {
      TimesMonotone(q' + 1, q, d);
    } else if q' > q {
      TimesMonotone(q + 1, q', d);
    }
  }

  lemma TimesMonotone(a: nat, b: nat, d: nat)
    requires a <= b
    ensures a * d <= b * d
    ensures (a + 1) * d == a * d + d
    ensures a > 0 ==> (a - 1) * d == a * d - d
  {
  }

  lemma {:induction false} TilesOffset(off: nat, fileSize: nat, chunkSize: nat, k: nat)
    requires chunkSize > 0 && k < |Tiles(off, fileSize, chunkSize)|
    ensures Tiles(off, fileSize, chunkSize)[k].off == off + k * chunkSize
    decreases k
  {
    if k > 0 {
      var size := if fileSize - off < chunkSize then fileSize - off else chunkSize;
      TilesOffset(off + size, fileSize, chunkSize, k - 1);
      assert size == chunkSize;
      assert (k - 1) * chunkSize == k * chunkSize - chunkSize;
    }
  }

  function Missing(ts: seq<Chunk>, completed: set<int>): seq<Chunk> {
    if ts == [] then []
    else if ts[0].off in completed then Missing(ts[1..], completed)
    else [ts[0]] + Missing(ts[1..], completed)
  }

  function Present(ts: seq<Chunk>, completed: set<int>): seq<Chunk> {
    if ts == [] then []
    else if ts[0].off in completed then [ts[0]] + Present(ts[1..], completed)
    else Present(ts[1..], completed)
  }

  function TotalSize(ts: seq<Chunk>): nat {
    if ts == [] then 0 else ts[0].size + TotalSize(ts[1..])
  }

  lemma {:induction false} TilesTotal(off: nat, fileSize: nat, chunkSize: nat)
    requires chunkSize > 0 && off <= fileSize
    ensures TotalSize(Tiles(off, fileSize, chunkSize)) == fileSize - off
    decreases fileSize - off
  {
    if off < fileSize {
      var size := if fileSize - off < chunkSize then fileSize - off else chunkSize;
      TilesTotal(off + size, fileSize, chunkSize);
      assert Tiles(off, fileSize, chunkSize)[1..] == Tiles(off + size, fileSize, chunkSize);
    }
  }

  /**
   The dispatch loop without its goroutines: which ranges it hands out and which it skips as already
   completed. `fileSize - startOffset` may be negative, and then nothing is visited.
   */
  method DispatchLoop(fileSize: nat, chunkSize: nat, startOffset: nat, completed: set<int>)
      returns (dispatched: seq<Chunk>, skipped: seq<Chunk>, reported: int)
    requires chunkSize > 0
    ensures dispatched == Missing(Tiles(startOffset, fileSize, chunkSize), completed)
    ensures skipped == Present(Tiles(startOffset, fileSize, chunkSize), completed)
    ensures reported == startOffset + TotalSize(skipped)
  {
    dispatched, skipped, reported := [], [], startOffset;
    var offset: int := startOffset;
    var remainSize: int := fileSize - startOffset;
    ghost var all := Tiles(startOffset, fileSize, chunkSize);
    ghost var seen := 0;
    while remainSize > 0
      invariant offset >= 0 && remainSize == fileSize - offset
      invariant seen <= |all| && all[seen..] == Tiles(offset, fileSize, chunkSize)
      invariant dispatched == Missing(all[..seen], completed)
      invariant skipped == Present(all[..seen], completed)
      invariant reported == startOffset + TotalSize(skipped)
    {
      var size := chunkSize;
      if remainSize < size {
        size := remainSize;
      }
      var t := Chunk(offset, size);
      TilesStep(offset, fileSize, chunkSize, size);
      assert all[seen] == all[seen..][0] == t;
      assert all[seen + 1..] == all[seen..][1..];
      assert all[..seen + 1] == all[..seen] + [t];
      SplitSnoc(all[..seen], completed, t);
      seen := seen + 1;
      if offset in completed {
        reported := reported + size;
        TotalSizeSnoc(skipped, t);
        skipped := skipped + [t];
      } else {
        dispatched := dispatched + [t];
      }
      offset := offset + size;
      remainSize := remainSize - size;
    }
    assert all[..seen] == all;
  }

  lemma TilesStep(off: nat, fileSize: nat, chunkSize: nat, size: nat)
    requires chunkSize > 0 && off < fileSize
    requires size == if fileSize - off < chunkSize then fileSize - off else chunkSize
    ensures Tiles(off, fileSize, chunkSize) != []
    ensures Tiles(off, fileSize, chunkSize)[0] == Chunk(off, size)
    ensures Tiles(off, fileSize, chunkSize)[1..] == Tiles(off + size, fileSize, chunkSize)
  {
  }

  lemma {:induction false} SplitSnoc(ts: seq<Chunk>, completed: set<int>, t: Chunk)
    ensures Missing(ts + [t], completed) == Missing(ts, completed) + if t.off in completed then [] else [t]
    ensures Present(ts + [t], completed) == Present(ts, completed) + if t.off in completed then [t] else []
  {
    if ts != [] {
      assert (ts + [t])[1..] == ts[1..] + [t];
      SplitSnoc(ts[1..], completed, t);
    }
  }

  lemma TotalSizeSnoc(ts: seq<Chunk>, t: Chunk)
    ensures TotalSize(ts + [t]) == TotalSize(ts) + t.size
  {
    if ts != [] {
      assert (ts + [t])[1..] == ts[1..] + [t];
      TotalSizeSnoc(ts[1..], t);
    }
  }

  /** Dispatched and skipped ranges together are all the ranges: none is lost, none is done twice. */
  lemma {:induction false} DispatchLosesNothing(ts: seq<Chunk>, completed: set<int>)
    ensures multiset(Missing(ts, completed)) + multiset(Present(ts, completed)) == multiset(ts)
    ensures TotalSize(Missing(ts, completed)) + TotalSize(Present(ts, completed)) == TotalSize(ts)
  {
    if ts != [] {
      DispatchLosesNothing(ts[1..], completed);
      assert ts == [ts[0]] + ts[1..];
      assert multiset(ts) == multiset{ts[0]} + multiset(ts[1..]);
      if ts[0].off in completed {
        assert multiset(Present(ts, completed)) == multiset{ts[0]} + multiset(Present(ts[1..], completed));
      } else {
        assert multiset(Missing(ts, completed)) == multiset{ts[0]} + multiset(Missing(ts[1..], completed));
      }
    }
  }

  lemma {:induction false} DispatchSplitsByCompleted(ts: seq<Chunk>, completed: set<int>, t: Chunk)
    ensures t in Missing(ts, completed) <==> t in ts && t.off !in completed
    ensures t in Present(ts, completed) <==> t in ts && t.off in completed
  {
    if ts != [] {
      DispatchSplitsByCompleted(ts[1..], completed, t);
      assert t in ts <==> t == ts[0] || t in ts[1..];
    }
  }
}
