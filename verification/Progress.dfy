/** The progress consumer of progressbar/progressbar.go: it counts bytes and leaves when it has them all. */
module Progress {
  import opened Prelude
  import opened Chunks

  /** How it ended: everything counted, or the context was done first. */
  datatype Ending = Complete | Interrupted

  /**
   The loop, fed from the channel until it returns. `sizes` are the values sent, in the order received; when
   they run out the context ends it. Timer ticks only redraw the bar.
   */
  method Progress(total: int, sizes: seq<int>) returns (ending: Ending, received: nat, sent: int)
    ensures received <= |sizes| && sent == Total(sizes[..received])
    ensures ending.Complete? ==> received > 0 && sent == total
    ensures forall k | 0 < k < received :: Total(sizes[..k]) != total
    ensures ending.Interrupted? ==> received == |sizes| && (received > 0 ==> sent != total)
  {
    sent, received := 0, 0;
    while received < |sizes|
      invariant received <= |sizes| && sent == Total(sizes[..received])
      invariant forall k | 0 < k <= received :: Total(sizes[..k]) != total
    {
      var size := sizes[received];
      assert sizes[..received + 1][..received] == sizes[..received];
      sent := sent + size;
      received := received + 1;
      if sent == total {
        return Complete, received, sent;
      }
    }
    return Interrupted, received, sent;
  }

  function Sizes(ts: seq<Chunk>): seq<int> {
    if ts == [] then [] else [ts[0].size as int] + Sizes(ts[1..])
  }

  /** The order of arrival does not matter for the sum. */
  lemma {:induction false} TotalOfMultiset(xs: seq<int>, ys: seq<int>)
    requires multiset(xs) == multiset(ys)
    ensures Total(xs) == Total(ys)
    decreases |xs|
  {
    if xs == [] {
      assert |multiset(xs)| == 0 && |ys| == |multiset(ys)|;
    } else {
      var x := xs[0];
      assert x in multiset(ys);
      var i :| 0 <= i < |ys| && ys[i] == x;
      assert xs == [x] + xs[1..];
      assert ys == ys[..i] + [x] + ys[i + 1..];
      var rest := ys[..i] + ys[i + 1..];
      assert multiset(rest) == multiset(ys) - multiset{x};
      assert multiset(xs[1..]) == multiset(xs) - multiset{x};
      TotalOfMultiset(xs[1..], rest);
      TotalAppend([x], xs[1..]);
      TotalAppend(ys[..i] + [x], ys[i + 1..]);
      TotalAppend(ys[..i], [x]);
      TotalAppend(ys[..i], ys[i + 1..]);
    }
  }

  lemma {:induction false} TotalOfSizes(ts: seq<Chunk>)
    ensures Total(Sizes(ts)) == TotalSize(ts)
  {
    if ts != [] {
      TotalOfSizes(ts[1..]);
      TotalAppend([ts[0].size], Sizes(ts[1..]));
    }
  }

  lemma {:induction false} PositiveTotal(xs: seq<int>, k: nat)
    requires k < |xs| && forall i | 0 <= i < |xs| :: xs[i] > 0
    ensures Total(xs[..k]) < Total(xs)
    decreases |xs|
  {
    var n := |xs| - 1;
    if k < n {
      assert xs[..n][..k] == xs[..k];
      PositiveTotal(xs[..n], k);
    }
  }

  lemma {:induction false} SizesPositive(ts: seq<Chunk>)
    requires forall i | 0 <= i < |ts| :: ts[i].size > 0
    ensures forall i | 0 <= i < |Sizes(ts)| :: Sizes(ts)[i] > 0
  {
    if ts != [] {
      SizesPositive(ts[1..]);
    }
  }

  /**
   Conservation: if the start offset is sent first and then the sizes of all chunks in any order, skipped or
   transferred, the consumer counts the whole file and every strictly shorter prefix stays below it. So it
   leaves on the last send, not before.
   */
  lemma ConsumerNeedsEverySend(start: nat, fileSize: nat, chunkSize: nat, sizes: seq<int>, k: nat)
    requires chunkSize > 0 && start <= fileSize
    requires multiset(sizes) == multiset(Sizes(Tiles(start, fileSize, chunkSize)))
    requires k < |sizes|
    ensures Total([start as int] + sizes) == fileSize
    ensures Total([start as int] + sizes[..k]) < fileSize
  {
    var ts := Tiles(start, fileSize, chunkSize);
    TilesPartition(start, fileSize, chunkSize);
    TilesTotal(start, fileSize, chunkSize);
    TotalOfSizes(ts);
    TotalOfMultiset(sizes, Sizes(ts));
    SizesPositive(ts);
    forall i | 0 <= i < |sizes| ensures sizes[i] > 0 {
      assert sizes[i] in multiset(Sizes(ts));
    }
    TotalAppend([start as int], sizes);
    TotalAppend([start as int], sizes[..k]);
    PositiveTotal(sizes, k);
  }
}
