/** What copying only the beginnings of some ranges of a file amounts to, in whatever order it is done. */
module PartialCopy {
  import opened Prelude
  import opened Chunks
  import opened Files

  /** So many bytes of each range, within the source. */
  predicate PartsFit(source: seq<byte>, ts: seq<Chunk>, parts: seq<nat>) {
    |parts| == |ts| && forall i | 0 <= i < |ts| :: ts[i].End() <= |source| && parts[i] <= ts[i].size
  }

  function PartOf(source: seq<byte>, t: Chunk, n: nat): (d: seq<byte>)
    requires t.End() <= |source| && n <= t.size
    ensures |d| == n
  {
    source[t.off..t.off + n]
  }

  /** The target with these parts of the first k ranges copied onto it. */
  function CopyParts(source: seq<byte>, ts: seq<Chunk>, parts: seq<nat>, target: seq<byte>, k: nat): seq<byte>
    requires PartsFit(source, ts, parts) && k <= |ts|
  {
    if k == 0 then target
    else WriteAt(CopyParts(source, ts, parts, target, k - 1), ts[k - 1].off, PartOf(source, ts[k - 1], parts[k - 1]))
  }

  ghost predicate Apart(ts: seq<Chunk>) {
    forall i, j | 0 <= i < j < |ts| :: ts[i].End() <= ts[j].off
  }

  lemma TilesApart(size: nat, chunkSize: nat)
    requires chunkSize > 0
    ensures Apart(Tiles(0, size, chunkSize))
    ensures forall t | t in Tiles(0, size, chunkSize) :: t.End() <= size && t.size > 0
  {
    var ts := Tiles(0, size, chunkSize);
    TilesPartition(0, size, chunkSize);
    forall i, j | 0 <= i < j < |ts| ensures ts[i].End() <= ts[j].off {
      PartitionOrdered(ts, 0, size, chunkSize, i, j);
    }
    forall i | 0 <= i < |ts| ensures ts[i].End() <= size {
      PartitionEnds(ts, 0, size, chunkSize, i);
    }
  }

  // ---- writes that do not touch each other

  lemma WritesCommute(t: seq<byte>, a: nat, x: seq<byte>, b: nat, y: seq<byte>)
    requires a + |x| <= b || b + |y| <= a
    ensures WriteAt(WriteAt(t, a, x), b, y) == WriteAt(WriteAt(t, b, y), a, x)
  {
  }

  lemma WriteIs(t: seq<byte>, off: nat, data: seq<byte>, p: nat)
    requires data != []
    ensures |WriteAt(t, off, data)| == if off + |data| > |t| then off + |data| else |t|
    ensures p < |WriteAt(t, off, data)| ==> WriteAt(t, off, data)[p] == ByteAfter(t, off, data, p)
  {
  }

  lemma JoinedAt(t: seq<byte>, a: nat, x: seq<byte>, y: seq<byte>, p: nat)
    requires x != [] && y != []
    ensures var left, right := WriteAt(WriteAt(t, a, x), a + |x|, y), WriteAt(t, a, x + y);
            |left| == |right| && (p < |left| ==> left[p] == right[p])
  {
    var mid := WriteAt(t, a, x);
    WriteIs(t, a, x, p);
    WriteIs(mid, a + |x|, y, p);
    WriteIs(t, a, x + y, p);
    JoinedByte(t, a, x, y, mid, p);
  }

  lemma JoinedByte(t: seq<byte>, a: nat, x: seq<byte>, y: seq<byte>, mid: seq<byte>, p: nat)
    requires |mid| == if a + |x| > |t| then a + |x| else |t|
    requires p < |mid| ==> mid[p] == ByteAfter(t, a, x, p)
    ensures ByteAfter(mid, a + |x|, y, p) == ByteAfter(t, a, x + y, p)
  {
    if a <= p < a + |x| + |y| {
      assert (x + y)[p - a] == if p < a + |x| then x[p - a] else y[p - a - |x|];
    }
  }

  lemma WritesJoin(t: seq<byte>, a: nat, x: seq<byte>, y: seq<byte>)
    ensures WriteAt(WriteAt(t, a, x), a + |x|, y) == WriteAt(t, a, x + y)
  {
    if x == [] {
      assert x + y == y;
    } else if y == [] {
      assert x + y == x;
    } else {
      AllJoined(WriteAt(WriteAt(t, a, x), a + |x|, y), t, a, x, y);
    }
  }

  lemma AllJoined(left: seq<byte>, t: seq<byte>, a: nat, x: seq<byte>, y: seq<byte>)
    requires x != [] && y != [] && left == WriteAt(WriteAt(t, a, x), a + |x|, y)
    ensures left == WriteAt(t, a, x + y)
  {
    JoinedAt(t, a, x, y, 0);
    forall p | 0 <= p < |left| ensures left[p] == WriteAt(t, a, x + y)[p] {
      JoinedAt(t, a, x, y, p);
    }
  }

  /** A piece of a range that begins where its part ends. */
  predicate Continues(source: seq<byte>, t: Chunk, n: nat, from: nat, d: seq<byte>) {
    from == t.off + n && n + |d| <= t.size && t.End() <= |source| && d == source[from..from + |d|]
  }

  /** It may be written after the parts of all ranges. */
  lemma {:induction false} MoreOfOne(source: seq<byte>, ts: seq<Chunk>, parts: seq<nat>, more: seq<nat>,
                                     target: seq<byte>, k: nat, i: nat, from: nat, d: seq<byte>)
    requires PartsFit(source, ts, parts) && PartsFit(source, ts, more) && Apart(ts) && i < k <= |ts|
    requires Continues(source, ts[i], parts[i], from, d) && more == parts[i := parts[i] + |d|]
    ensures WriteAt(CopyParts(source, ts, parts, target, k), from, d) == CopyParts(source, ts, more, target, k)
    decreases k
  {
    if i == k - 1 {
      MoreOfLast(source, ts, parts, more, target, i, from, d);
    } else {
      MoreOfOne(source, ts, parts, more, target, k - 1, i, from, d);
      assert from + |d| <= ts[i].End() <= ts[k - 1].off;
      PastLast(source, ts, parts, more, target, k, from, d);
    }
  }

  lemma MoreOfLast(source: seq<byte>, ts: seq<Chunk>, parts: seq<nat>, more: seq<nat>, target: seq<byte>, i: nat,
                   from: nat, d: seq<byte>)
    requires PartsFit(source, ts, parts) && PartsFit(source, ts, more) && i < |ts|
    requires Continues(source, ts[i], parts[i], from, d) && more == parts[i := parts[i] + |d|]
    ensures WriteAt(CopyParts(source, ts, parts, target, i + 1), from, d) == CopyParts(source, ts, more, target, i + 1)
  {
    assert parts[..i] == more[..i];
    SameBelow(source, ts, parts, more, target, i);
    PartGrows(source, ts[i], parts[i], from, d, CopyParts(source, ts, parts, target, i));
  }

  /** A write before the last range may as well come before its part. */
  lemma PastLast(source: seq<byte>, ts: seq<Chunk>, parts: seq<nat>, more: seq<nat>, target: seq<byte>, k: nat,
                 from: nat, d: seq<byte>)
    requires PartsFit(source, ts, parts) && PartsFit(source, ts, more) && 0 < k <= |ts|
    requires parts[k - 1] == more[k - 1] && from + |d| <= ts[k - 1].off
    requires WriteAt(CopyParts(source, ts, parts, target, k - 1), from, d) == CopyParts(source, ts, more, target, k - 1)
    ensures WriteAt(CopyParts(source, ts, parts, target, k), from, d) == CopyParts(source, ts, more, target, k)
  {
    var before, last := CopyParts(source, ts, parts, target, k - 1), ts[k - 1];
    WritesCommute(before, last.off, PartOf(source, last, parts[k - 1]), from, d);
  }

  lemma PartGrows(source: seq<byte>, t: Chunk, n: nat, from: nat, d: seq<byte>, before: seq<byte>)
    requires t.End() <= |source| && n <= t.size && Continues(source, t, n, from, d)
    ensures WriteAt(WriteAt(before, t.off, PartOf(source, t, n)), from, d) ==
            WriteAt(before, t.off, PartOf(source, t, n + |d|))
  {
    WritesJoin(before, t.off, PartOf(source, t, n), d);
    assert PartOf(source, t, n) + d == PartOf(source, t, n + |d|);
  }

  lemma {:induction false} SameBelow(source: seq<byte>, ts: seq<Chunk>, parts: seq<nat>, parts': seq<nat>,
                                     target: seq<byte>, k: nat)
    requires PartsFit(source, ts, parts) && PartsFit(source, ts, parts') && k <= |ts| && parts[..k] == parts'[..k]
    ensures CopyParts(source, ts, parts, target, k) == CopyParts(source, ts, parts', target, k)
  {
    if k > 0 {
      assert parts[..k - 1] == parts[..k][..k - 1] == parts'[..k - 1];
      assert parts[k - 1] == parts[..k][k - 1] == parts'[k - 1];
      SameBelow(source, ts, parts, parts', target, k - 1);
    }
  }

  // ---- nothing, something, everything

  lemma {:induction false} NoParts(source: seq<byte>, ts: seq<Chunk>, parts: seq<nat>, target: seq<byte>, k: nat)
    requires PartsFit(source, ts, parts) && k <= |ts| && forall i | 0 <= i < k :: parts[i] == 0
    ensures CopyParts(source, ts, parts, target, k) == target
  {
    if k > 0 {
      NoParts(source, ts, parts, target, k - 1);
    }
  }

  /** Some of the source's bytes are in place, the others as they were. */
  predicate Partial(source: seq<byte>, before: seq<byte>, after: seq<byte>) {
    && |before| <= |after| && (|after| <= |before| || |after| <= |source|)
    && forall p | 0 <= p < |after| ::
      || (p < |source| && after[p] == source[p])
      || after[p] == if p < |before| then before[p] else 0
  }

  lemma WriteKeepsPartial(source: seq<byte>, before: seq<byte>, after: seq<byte>, a: nat, b: nat)
    requires Partial(source, before, after) && a <= b <= |source|
    ensures Partial(source, before, WriteAt(after, a, source[a..b]))
  {
  }

  lemma {:induction false} SomeParts(source: seq<byte>, ts: seq<Chunk>, parts: seq<nat>, target: seq<byte>, k: nat)
    requires PartsFit(source, ts, parts) && k <= |ts|
    ensures Partial(source, target, CopyParts(source, ts, parts, target, k))
  {
    if k > 0 {
      SomeParts(source, ts, parts, target, k - 1);
      var from := ts[k - 1].off;
      WriteKeepsPartial(source, target, CopyParts(source, ts, parts, target, k - 1), from, from + parts[k - 1]);
    }
  }

  lemma PartIsRight(source: seq<byte>, t: Chunk, n: nat, before: seq<byte>)
    requires t.End() <= |source| && n <= t.size
    ensures Right(source, WriteAt(before, t.off, PartOf(source, t, n)), t.off, t.off + n)
  {
    WriteExtendsRight(source, before, t.off, t.off, t.off + n);
  }

  lemma PartKeepsRight(source: seq<byte>, t: Chunk, n: nat, before: seq<byte>, a: nat, b: nat)
    requires t.End() <= |source| && n <= t.size && Right(source, before, a, b)
    ensures Right(source, WriteAt(before, t.off, PartOf(source, t, n)), a, b)
  {
    WriteKeepsRight(source, before, t.off, t.off + n, a, b);
  }

  lemma {:induction false} PartsAreRight(source: seq<byte>, ts: seq<Chunk>, parts: seq<nat>, target: seq<byte>,
                                         k: nat, i: nat)
    requires PartsFit(source, ts, parts) && i < k <= |ts|
    ensures Right(source, CopyParts(source, ts, parts, target, k), ts[i].off, ts[i].off + parts[i])
  {
    var before := CopyParts(source, ts, parts, target, k - 1);
    if i == k - 1 {
      PartIsRight(source, ts[i], parts[i], before);
    } else {
      PartsAreRight(source, ts, parts, target, k - 1, i);
      PartKeepsRight(source, ts[k - 1], parts[k - 1], before, ts[i].off, ts[i].off + parts[i]);
    }
  }

  lemma {:induction false} PartsKeepTail(source: seq<byte>, ts: seq<Chunk>, parts: seq<nat>, target: seq<byte>, k: nat)
    requires PartsFit(source, ts, parts) && k <= |ts|
    ensures Tail(CopyParts(source, ts, parts, target, k), |source|) == Tail(target, |source|)
  {
    if k > 0 {
      PartsKeepTail(source, ts, parts, target, k - 1);
      WriteKeepsTail(CopyParts(source, ts, parts, target, k - 1), ts[k - 1].off,
                     PartOf(source, ts[k - 1], parts[k - 1]), |source|);
    }
  }

  /** All of all ranges: the source, and what lay beyond it. Ranges that were right already need no copy. */
  lemma AllParts(source: seq<byte>, chunkSize: nat, parts: seq<nat>, target: seq<byte>)
    requires chunkSize > 0 && PartsFit(source, Tiles(0, |source|, chunkSize), parts)
    requires var ts := Tiles(0, |source|, chunkSize);
             forall i | 0 <= i < |ts| :: parts[i] == ts[i].size || Right(source, target, ts[i].off, ts[i].End())
    ensures var ts := Tiles(0, |source|, chunkSize);
            CopyParts(source, ts, parts, target, |ts|) == source + Tail(target, |source|)
  {
    var ts := Tiles(0, |source|, chunkSize);
    var after := CopyParts(source, ts, parts, target, |ts|);
    TilesPartition(0, |source|, chunkSize);
    PartsKeepTail(source, ts, parts, target, |ts|);
    forall i | 0 <= i < |ts| ensures Right(source, after, ts[i].off, ts[i].End()) {
      if parts[i] < ts[i].size {
        StaysRight(source, ts, parts, target, |ts|, ts[i].off, ts[i].End());
      } else {
        PartsAreRight(source, ts, parts, target, |ts|, i);
      }
    }
    RightFromChunks(source, after, ts, chunkSize);
    AllRightIsCopy(source, after);
  }

  lemma {:induction false} StaysRight(source: seq<byte>, ts: seq<Chunk>, parts: seq<nat>, target: seq<byte>, k: nat,
                                      a: nat, b: nat)
    requires PartsFit(source, ts, parts) && k <= |ts| && Right(source, target, a, b)
    ensures Right(source, CopyParts(source, ts, parts, target, k), a, b)
  {
    if k > 0 {
      StaysRight(source, ts, parts, target, k - 1, a, b);
      PartKeepsRight(source, ts[k - 1], parts[k - 1], CopyParts(source, ts, parts, target, k - 1), a, b);
    }
  }
}
