/** Positional writes on a file's contents, and the copy that a transfer is meant to amount to. */
module Files {
  import opened Prelude
  import opened Chunks

  function Zeros(n: nat): (z: seq<byte>)
    ensures |z| == n
    ensures forall p | 0 <= p < n :: z[p] == 0
  {
    seq(n, _ => 0)
  }

  /** What position p holds after `data` was written at `off`; a gap before `off` reads as zeros. */
  function ByteAfter(t: seq<byte>, off: nat, data: seq<byte>, p: int): byte {
    if off <= p < off + |data| then data[p - off] else if 0 <= p < |t| then t[p] else 0
  }

  /** os.File.WriteAt; writing nothing changes nothing. */
  function WriteAt(t: seq<byte>, off: nat, data: seq<byte>): seq<byte> {
    if data == [] then t
    else seq(if off + |data| > |t| then off + |data| else |t|, p => ByteAfter(t, off, data, p))
  }

  /** The part of the data that reaches the file when the write may fail. */
  function Landed(data: seq<byte>, failsAfter: Option<nat>): (d: seq<byte>)
    ensures d <= data && (failsAfter.None? ==> d == data)
  {
    if failsAfter.Some? && failsAfter.value <= |data| then data[..failsAfter.value] else data
  }

  /** Positions a..b of the target hold what they hold in the source. */
  ghost predicate Right(source: seq<byte>, target: seq<byte>, a: nat, b: nat)
    decreases b
  {
    a >= b || (b <= |source| && b <= |target| && target[b - 1] == source[b - 1] && Right(source, target, a, b - 1))
  }

  lemma {:induction false} RightAt(source: seq<byte>, target: seq<byte>, a: nat, b: nat, p: nat)
    requires Right(source, target, a, b) && a <= p < b
    ensures p < |source| && p < |target| && target[p] == source[p]
    decreases b
  {
    if p < b - 1 {
      RightAt(source, target, a, b - 1, p);
    }
  }

  lemma {:induction false} RightEverywhere(source: seq<byte>, target: seq<byte>, a: nat, b: nat)
    requires b <= |source|
    requires forall p | a <= p < b :: p < |target| && target[p] == source[p]
    ensures Right(source, target, a, b)
    decreases b
  {
    if a < b {
      var last := source[b - 1];
      assert b - 1 < |target|;
      RightEverywhere(source, target, a, b - 1);
    }
  }

  /** The same, said of slices. */
  lemma RightSlice(source: seq<byte>, target: seq<byte>, a: nat, b: nat)
    requires Right(source, target, a, b) && a < b
    ensures b <= |source| && b <= |target| && target[a..b] == source[a..b]
  {
    RightAt(source, target, a, b, b - 1);
    forall k | 0 <= k < b - a ensures target[a..b][k] == source[a..b][k] {
      RightAt(source, target, a, b, a + k);
    }
  }

  /** Writing any piece of the source to its own place keeps right what is right. */
  lemma WriteKeepsRight(source: seq<byte>, target: seq<byte>, x: nat, y: nat, a: nat, b: nat)
    requires x <= y <= |source| && Right(source, target, a, b)
    ensures Right(source, WriteAt(target, x, source[x..y]), a, b)
  {
    var after := WriteAt(target, x, source[x..y]);
    if a < b {
      forall p | a <= p < b ensures p < |after| && after[p] == source[p] {
        RightAt(source, target, a, b, p);
      }
      RightEverywhere(source, after, a, b);
    }
  }

  /** ... and extends what is right up to the place written. */
  lemma WriteExtendsRight(source: seq<byte>, target: seq<byte>, a: nat, x: nat, y: nat)
    requires a <= x <= y <= |source| && Right(source, target, a, x)
    ensures Right(source, WriteAt(target, x, source[x..y]), a, y)
  {
    var after := WriteAt(target, x, source[x..y]);
    forall p | a <= p < y ensures p < |after| && after[p] == source[p] {
      if p < x {
        RightAt(source, target, a, x, p);
      }
    }
    RightEverywhere(source, after, a, y);
  }

  /** The bytes of a file from position n on. */
  function Tail(t: seq<byte>, n: nat): seq<byte> {
    if |t| <= n then [] else t[n..]
  }

  lemma WriteKeepsTail(t: seq<byte>, off: nat, data: seq<byte>, n: nat)
    requires off + |data| <= n
    ensures Tail(WriteAt(t, off, data), n) == Tail(t, n)
  {
  }

  /** A file that is right everywhere is the source followed by whatever lay beyond it. */
  lemma AllRightIsCopy(source: seq<byte>, target: seq<byte>)
    requires Right(source, target, 0, |source|)
    ensures target == source + Tail(target, |source|)
  {
    if source != [] {
      RightSlice(source, target, 0, |source|);
      assert target == target[0..|source|] + target[|source|..];
    }
  }

  function Piece(source: seq<byte>, t: Chunk): (d: seq<byte>)
    requires t.End() <= |source|
    ensures |d| == t.size
  {
    source[t.off..t.End()]
  }

  /** The reference: copy the ranges one after the other, left to right. */
  function CopyInOrder(source: seq<byte>, target: seq<byte>, ts: seq<Chunk>): seq<byte>
    requires forall t | t in ts :: t.End() <= |source|
    decreases |ts|
  {
    if ts == [] then target
    else CopyInOrder(source, WriteAt(target, ts[0].off, Piece(source, ts[0])), ts[1..])
  }

  lemma {:induction false} CopyInOrderKeeps(source: seq<byte>, target: seq<byte>, ts: seq<Chunk>, a: nat, b: nat)
    requires forall t | t in ts :: t.End() <= |source|
    requires b <= |source| && Right(source, target, a, b)
    decreases |ts|
    ensures Right(source, CopyInOrder(source, target, ts), a, b)
    ensures Tail(CopyInOrder(source, target, ts), |source|) == Tail(target, |source|)
  {
    if ts != [] {
      WriteKeepsRight(source, target, ts[0].off, ts[0].End(), a, b);
      WriteKeepsTail(target, ts[0].off, Piece(source, ts[0]), |source|);
      CopyInOrderKeeps(source, WriteAt(target, ts[0].off, Piece(source, ts[0])), ts[1..], a, b);
    }
  }

  lemma {:induction false} CopyInOrderMakesRight(source: seq<byte>, target: seq<byte>, ts: seq<Chunk>, i: nat)
    requires forall t | t in ts :: t.End() <= |source|
    requires i < |ts|
    decreases |ts|
    ensures Right(source, CopyInOrder(source, target, ts), ts[i].off, ts[i].End())
  {
    var next := WriteAt(target, ts[0].off, Piece(source, ts[0]));
    if i == 0 {
      WriteExtendsRight(source, target, ts[0].off, ts[0].off, ts[0].End());
      CopyInOrderKeeps(source, next, ts[1..], ts[0].off, ts[0].End());
    } else {
      CopyInOrderMakesRight(source, next, ts[1..], i - 1);
    }
  }

  lemma RightFromChunks(source: seq<byte>, target: seq<byte>, ts: seq<Chunk>, chunkSize: nat)
    requires Partition(ts, 0, |source|, chunkSize)
    requires forall i | 0 <= i < |ts| :: ts[i].End() <= |source| && Right(source, target, ts[i].off, ts[i].End())
    ensures Right(source, target, 0, |source|)
  {
    forall p | 0 <= p < |source|
      ensures p < |target| && target[p] == source[p]
    {
      var i := FindRange(ts, 0, |source|, chunkSize, p, |ts| - 1);
      RightAt(source, target, ts[i].off, ts[i].End(), p);
    }
    RightEverywhere(source, target, 0, |source|);
  }

  /** The left-to-right copy yields the source followed by what lay beyond its length before. */
  lemma CopyInOrderIsCopy(source: seq<byte>, target: seq<byte>, chunkSize: nat)
    requires chunkSize > 0
    ensures forall t | t in Tiles(0, |source|, chunkSize) :: t.End() <= |source|
    ensures CopyInOrder(source, target, Tiles(0, |source|, chunkSize)) == source + Tail(target, |source|)
  {
    var ts := Tiles(0, |source|, chunkSize);
    TilesPartition(0, |source|, chunkSize);
    forall i | 0 <= i < |ts| ensures ts[i].End() <= |source| {
      PartitionEnds(ts, 0, |source|, chunkSize, i);
    }
    var copy := CopyInOrder(source, target, ts);
    forall i | 0 <= i < |ts| ensures Right(source, copy, ts[i].off, ts[i].End()) {
      CopyInOrderMakesRight(source, target, ts, i);
    }
    RightFromChunks(source, copy, ts, chunkSize);
    AllRightIsCopy(source, copy);
    CopyInOrderKeeps(source, target, ts, 0, 0);
  }
}
