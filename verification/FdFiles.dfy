/** What the file handlers' reference means for the files, position by position, and that an upload gets through it. */
module FdFiles {
  import opened Prelude
  import opened Chunks
  import opened Files
  import opened FdCache

  /** No other file appears, disappears or changes. */
  ghost predicate OnlyFile(fs: Contents, fs': Contents, path: string) {
    forall q | q != path :: (q in fs' <==> q in fs) && (q in fs ==> fs'[q] == fs[q])
  }

  /** The file holds d from off on, and elsewhere what it held, or zeros where it held nothing. */
  ghost predicate Overlaid(before: seq<byte>, after: seq<byte>, off: nat, d: seq<byte>) {
    && |after| == (if d == [] || off + |d| <= |before| then |before| else off + |d|)
    && (forall p | 0 <= p < |d| :: after[off + p] == d[p])
    && (forall p | 0 <= p < |after| && !(off <= p < off + |d|) :: after[p] == if p < |before| then before[p] else 0)
  }

  predicate CanOpen(a: Access, fs: Contents, path: string, served: bool) {
    served && path in fs && path in a.readable
  }

  /** A write succeeds exactly if the file can be had for writing and the system does not fail; what it leaves. */
  lemma WriteIs(a: Access, fs: Contents, path: string, off: int, data: seq<byte>, failsAfter: Option<nat>,
                served: bool)
    ensures var (reply, fs') := Direct(a, fs, Write(path, off, data, failsAfter), served);
            var had := CanOpen(a, fs, path, served) && path in a.writable;
            && reply == (if had && off >= 0 && failsAfter.None? then Wrote(|data|) else Failed)
            && fs'.Keys == fs.Keys && OnlyFile(fs, fs', path)
            && (!had || off < 0 ==> fs' == fs)
            && (had && off >= 0 ==>
                  var n := if failsAfter.Some? && failsAfter.value < |data| then failsAfter.value else |data|;
                  Overlaid(fs[path], fs'[path], off, data[..n]))
  {
    var (reply, fs') := Direct(a, fs, Write(path, off, data, failsAfter), served);
    if CanOpen(a, fs, path, served) && path in a.writable {
      if off >= 0 {
        var n := if failsAfter.Some? && failsAfter.value < |data| then failsAfter.value else |data|;
        assert Landed(data, failsAfter) == data[..n];
      } else {
        assert fs' == fs;
      }
    }
  }

  /** A read: all there is of the range, which is a failure only if that is nothing although something was asked for. */
  lemma ReadIs(a: Access, fs: Contents, path: string, off: int, count: int, statFails: bool, served: bool)
    ensures var (reply, fs') := Direct(a, fs, Read(path, off, count, statFails), served);
            && fs' == fs
            && (reply.Crashed? <==> CanOpen(a, fs, path, served) && !statFails && !(0 <= count <= a.largestBuffer))
            && (reply.Data? <==>
                  && CanOpen(a, fs, path, served) && !statFails && 0 <= count <= a.largestBuffer
                  && 0 <= off && (count == 0 || off < |fs[path]|))
            && (reply.Failed? <==> !reply.Crashed? && !reply.Data?)
            && (reply.Data? ==>
                  && |reply.bytes| == (if off >= |fs[path]| then 0
                                       else if off + count <= |fs[path]| then count else |fs[path]| - off)
                  && forall p | 0 <= p < |reply.bytes| :: reply.bytes[p] == fs[path][off + p])
  {
  }

  /** A create: an existing file stays; a new one is made and sized, and a failed sizing leaves it empty. */
  lemma CreateIs(a: Access, fs: Contents, path: string, size: int, making: Making, served: bool)
    ensures var (reply, fs') := Direct(a, fs, Create(path, size, making), served);
            var sized := size <= 0 || making.Made?;
            && (reply == Created || reply == Failed)
            && (reply == Created <==> !making.Blocked? && (path in fs || (!making.Refused? && sized)))
            && OnlyFile(fs, fs', path)
            && (path in fs || making.Blocked? || making.Refused? ==> fs' == fs)
            && (path !in fs && !making.Blocked? && !making.Refused? ==>
                  && path in fs' && |fs'[path]| == (if size > 0 && making.Made? then size else 0)
                  && forall p | 0 <= p < |fs'[path]| :: fs'[path][p] == 0)
  {
  }

  /** A hash: of exactly what the file holds. Hashing and sweeping leave the files alone. */
  lemma HashIs(a: Access, fs: Contents, path: string, fault: HashFault, now: int, served: bool)
    ensures var (reply, fs') := Direct(a, fs, Hash(path, fault), served);
            && fs' == fs && (reply.Digest? || reply == Failed)
            && (reply.Digest? <==> CanOpen(a, fs, path, served) && fault == NoFault)
            && (reply.Digest? ==> reply.of == fs[path])
    ensures Direct(a, fs, Sweep(now), served) == (Silent, fs)
  {
  }

  // ---- an upload through the handlers

  function WriteOf(source: seq<byte>, path: string, t: Chunk): Op
    requires t.End() <= |source|
  {
    Write(path, t.off, Piece(source, t), None)
  }

  function WritesOf(source: seq<byte>, path: string, ts: seq<Chunk>): (ops: seq<Op>)
    requires forall t | t in ts :: t.End() <= |source|
    ensures |ops| == |ts|
  {
    seq(|ts|, i requires 0 <= i < |ts| => WriteOf(source, path, ts[i]))
  }

  function AllServed(n: nat): (s: seq<bool>)
    ensures |s| == n
  {
    seq(n, _ => true)
  }

  /** The state after a create of the source's size and these writes. */
  function Uploaded(a: Access, fs: Contents, source: seq<byte>, path: string, ts: seq<Chunk>): (seq<Reply>, Contents)
    requires forall t | t in ts :: t.End() <= |source|
  {
    DirectRun(a, fs, [Create(path, |source|, Made)] + WritesOf(source, path, ts), AllServed(1 + |ts|))
  }

  predicate MayWrite(a: Access, path: string) {
    path in a.readable && path in a.writable
  }

  /** What is beyond the source in the old file. */
  function OldTail(fs: Contents, source: seq<byte>, path: string): seq<byte> {
    if path in fs then Tail(fs[path], |source|) else []
  }

  lemma UploadBegins(a: Access, fs: Contents, source: seq<byte>, path: string)
    ensures var (replies, fs') := Uploaded(a, fs, source, path, []);
            && replies == [Created] && path in fs' && Tail(fs'[path], |source|) == OldTail(fs, source, path)
            && OnlyFile(fs, fs', path)
  {
    var create := Create(path, |source|, Made);
    assert [create] + WritesOf(source, path, []) == [create];
    assert [create][..0] == [] && AllServed(1)[..0] == [];
    assert DirectRun(a, fs, [], []) == ([], fs);
    assert DirectRun(a, fs, [create], AllServed(1)).1 == Direct(a, fs, create, true).1;
    CreateIs(a, fs, path, |source|, Made, true);
  }

  lemma UploadGoesOn(a: Access, fs: Contents, source: seq<byte>, path: string, ts: seq<Chunk>, t: Chunk)
    requires t.End() <= |source| && forall u | u in ts :: u.End() <= |source|
    ensures var (replies, fs') := Uploaded(a, fs, source, path, ts);
            var (reply, fs'') := Direct(a, fs', WriteOf(source, path, t), true);
            Uploaded(a, fs, source, path, ts + [t]) == (replies + [reply], fs'')
  {
    var ops := [Create(path, |source|, Made)] + WritesOf(source, path, ts);
    var more := [Create(path, |source|, Made)] + WritesOf(source, path, ts + [t]);
    assert more == ops + [WriteOf(source, path, t)];
    assert more[..|ops|] == ops && AllServed(|more|)[..|ops|] == AllServed(|ops|);
  }

  /** A piece of the source was written, in terms of what is right and what lies beyond. */
  ghost predicate PieceWritten(source: seq<byte>, path: string, t: Chunk, fs: Contents, reply: Reply, fs': Contents) {
    && reply == Wrote(t.size) && path in fs && path in fs' && OnlyFile(fs, fs', path)
    && Right(source, fs'[path], t.off, t.End())
    && Tail(fs'[path], |source|) == Tail(fs[path], |source|)
    && forall x: nat, y: nat | Right(source, fs[path], x, y) :: Right(source, fs'[path], x, y)
  }

  lemma WritesPiece(a: Access, fs: Contents, source: seq<byte>, path: string, t: Chunk)
    requires MayWrite(a, path) && path in fs && t.End() <= |source|
    ensures var (reply, fs') := Direct(a, fs, WriteOf(source, path, t), true);
            PieceWritten(source, path, t, fs, reply, fs')
  {
    WriteIs(a, fs, path, t.off, Piece(source, t), None, true);
    WriteExtendsRight(source, fs[path], t.off, t.off, t.End());
    WriteKeepsTail(fs[path], t.off, Piece(source, t), |source|);
    forall x: nat, y: nat | Right(source, fs[path], x, y)
      ensures Right(source, WriteAt(fs[path], t.off, source[t.off..t.End()]), x, y)
    {
      WriteKeepsRight(source, fs[path], t.off, t.End(), x, y);
    }
  }

  /** What these writes have come to. */
  ghost predicate SoFar(fs: Contents, source: seq<byte>, path: string, ts: seq<Chunk>, replies: seq<Reply>,
                        fs': Contents) {
    && |replies| == 1 + |ts| && replies[0] == Created
    && (forall i | 0 <= i < |ts| :: replies[i + 1] == Wrote(ts[i].size))
    && path in fs' && OnlyFile(fs, fs', path) && Tail(fs'[path], |source|) == OldTail(fs, source, path)
    && forall t | t in ts :: Right(source, fs'[path], t.off, t.End())
  }

  lemma SoFarNext(fs: Contents, source: seq<byte>, path: string, ts: seq<Chunk>, t: Chunk, replies: seq<Reply>,
                  fs': Contents, reply: Reply, fs'': Contents)
    requires SoFar(fs, source, path, ts, replies, fs') && PieceWritten(source, path, t, fs', reply, fs'')
    ensures SoFar(fs, source, path, ts + [t], replies + [reply], fs'')
  {
  }

  lemma {:induction false} UploadKeeps(a: Access, fs: Contents, source: seq<byte>, path: string, ts: seq<Chunk>)
    requires MayWrite(a, path) && forall t | t in ts :: t.End() <= |source|
    ensures var (replies, fs') := Uploaded(a, fs, source, path, ts); SoFar(fs, source, path, ts, replies, fs')
    decreases |ts|
  {
    if ts == [] {
      UploadBegins(a, fs, source, path);
    } else {
      var n := |ts| - 1;
      assert ts == ts[..n] + [ts[n]];
      UploadKeeps(a, fs, source, path, ts[..n]);
      UploadGoesOn(a, fs, source, path, ts[..n], ts[n]);
      var (replies, fs') := Uploaded(a, fs, source, path, ts[..n]);
      var (reply, fs'') := Direct(a, fs', WriteOf(source, path, ts[n]), true);
      WritesPiece(a, fs', source, path, ts[n]);
      SoFarNext(fs, source, path, ts[..n], ts[n], replies, fs', reply, fs'');
    }
  }

  /**
   A create and then the chunks of a source, in any order and any of them repeatedly: every request succeeds, the file
   is the source and what an old file held beyond it, no other file differs, and a hash is of that.
   */
  lemma UploadThroughHandlers(a: Access, fs: Contents, source: seq<byte>, path: string, chunkSize: nat, ts: seq<Chunk>)
    requires MayWrite(a, path) && chunkSize > 0
    requires forall t :: t in ts <==> t in Tiles(0, |source|, chunkSize)
    ensures forall t | t in ts :: t.End() <= |source|
    ensures var (replies, fs') := Uploaded(a, fs, source, path, ts);
            var whole := source + if path in fs then Tail(fs[path], |source|) else [];
            && |replies| == 1 + |ts| && replies[0] == Created
            && (forall i | 0 <= i < |ts| :: replies[i + 1] == Wrote(ts[i].size))
            && path in fs' && fs'[path] == whole && OnlyFile(fs, fs', path)
            && Direct(a, fs', Hash(path, NoFault), true).0 == Digest(whole)
  {
    var tiles := Tiles(0, |source|, chunkSize);
    TilesPartition(0, |source|, chunkSize);
    forall i | 0 <= i < |tiles| ensures tiles[i].End() <= |source| {
      PartitionEnds(tiles, 0, |source|, chunkSize, i);
    }
    UploadKeeps(a, fs, source, path, ts);
    var file := Uploaded(a, fs, source, path, ts).1[path];
    forall i | 0 <= i < |tiles| ensures Right(source, file, tiles[i].off, tiles[i].End()) {
      assert tiles[i] in ts;
    }
    RightFromChunks(source, file, tiles, chunkSize);
    AllRightIsCopy(source, file);
  }
}
