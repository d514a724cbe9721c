/** The recursive download as a whole: what cpDirFromHost leaves, said by looking paths up on the remote host. */
module MirrorCopy {
  import opened Prelude
  import opened Chunks
  import opened Files
  import opened PartialCopy
  import opened Mirror
  import opened MirrorWalk
  import opened MirrorDirs

  /** What success says of one file: how it was produced, and when it has the source's bytes. */
  ghost predicate MirroredAt(before: Contents, after: Contents, at: Path, b: seq<byte>, w: World) {
    && at in after && after[at] == Left(w, before, at, b)
    && (Cut(w, at) ==> Partial(b, Base(before, at, w.resumed(at)), after[at]))
    && (!Cut(w, at) ==> (after[at] == b <==> !(w.resumed(at) && at in before && |before[at]| > |b|)))
    && (w.verify ==> after[at] == b)
  }

  lemma LeftFacts(w: World, before: Contents, at: Path, b: seq<byte>)
    ensures Cut(w, at) ==> Partial(b, Base(before, at, w.resumed(at)), Left(w, before, at, b))
    ensures !Cut(w, at) ==> (Left(w, before, at, b) == b <==> !(w.resumed(at) && at in before && |before[at]| > |b|))
  {
    var base, ts := Base(before, at, w.resumed(at)), Tiles(0, |b|, w.chunkSize);
    var tail := Tail(base, |b|);
    assert |b + tail| == |b| + |tail|;
    if Cut(w, at) && PartsPossible(b, w.chunkSize, w.batch, w.outcome(at).parts) {
      SomeParts(b, ts, w.outcome(at).parts, base, |ts|);
    }
  }

  /**
   cpDirFromHost: success leaves every remote file at the matching local path. Under a context that was not
   cancelled it has the same bytes exactly unless its download resumed on a longer file; with hash checking it
   always has them; and a file cut short by a cancellation has some of them, but only the last thing that the walk
   comes to can be such a file. Every remote directory is there too. Success or not, no other local file appears,
   disappears or changes, and no directory appears but those and those on the way to the target.
   */
  method CpDirFromHost(fs: LocalFs, root: Node, srcDir: Path, target: Path, w: World) returns (ok: bool)
    requires ValidTree(root)
    modifies fs
    ensures ok ==> forall p | IsFile(root, srcDir + p) ::
              && MirroredAt(old(fs.files), fs.files, target + p, Lookup(root, srcDir + p).value.bytes, w)
              && (Cut(w, target + p) ==> LastAt(root, srcDir, target) == Some(target + p))
    ensures forall q | !(target <= q && IsFile(root, srcDir + q[|target|..])) ::
              (q in fs.files <==> q in old(fs.files)) && (q in fs.files ==> fs.files[q] == old(fs.files)[q])
    ensures ok ==> forall p | IsDir(root, srcDir + p) :: target + p in fs.dirs
    ensures old(fs.dirs) <= fs.dirs
    ensures forall q | q in fs.dirs && q !in old(fs.dirs) ::
              q <= target || (target <= q && IsDir(root, srcDir + q[|target|..]))
  {
    ghost var before := fs.View();
    ok := WalkRemoteDir(fs, root, srcDir, target, w);
    WalkAtMakesDirs(root, srcDir, target, before, w);
    WalkAtIsSound(root, srcDir, target, before, w);
    SoundIsLookup(root, srcDir, target, before.files, (ok, fs.View()), w);
    if ok {
      WalkAtCutsLast(root, srcDir, target, before, w);
      forall p | IsFile(root, srcDir + p) && Cut(w, target + p)
        ensures LastAt(root, srcDir, target) == Some(target + p)
      {
        FilesAtIsLookup(root, srcDir, target, p);
      }
    }
  }

  lemma WalkAtIsSound(root: Node, srcDir: Path, target: Path, l: Local, w: World)
    requires ValidTree(root)
    ensures WalkSound(w, l.files, WalkAt(root, srcDir, target, l, w), FilesAt(root, srcDir, target))
  {
    var n := Lookup(root, srcDir);
    if n.Some? {
      LookupValid(root, srcDir);
      if n.value.Dir? {
        WalkIsSound(n.value, srcDir, target, l, w);
      }
    }
  }

  lemma SoundIsLookup(root: Node, srcDir: Path, target: Path, before: Contents, result: (bool, Local), w: World)
    requires ValidTree(root) && WalkSound(w, before, result, FilesAt(root, srcDir, target))
    ensures result.0 ==> forall p | IsFile(root, srcDir + p) ::
              MirroredAt(before, result.1.files, target + p, Lookup(root, srcDir + p).value.bytes, w)
    ensures forall q | !(target <= q && IsFile(root, srcDir + q[|target|..])) ::
              (q in result.1.files <==> q in before) && (q in result.1.files ==> result.1.files[q] == before[q])
  {
    if result.0 {
      forall p | IsFile(root, srcDir + p)
        ensures MirroredAt(before, result.1.files, target + p, Lookup(root, srcDir + p).value.bytes, w)
      {
        FilesAtIsLookup(root, srcDir, target, p);
        LeftFacts(w, before, target + p, Lookup(root, srcDir + p).value.bytes);
      }
    }
    forall q | !(target <= q && IsFile(root, srcDir + q[|target|..])) ensures q !in FilesAt(root, srcDir, target) {
      if q in FilesAt(root, srcDir, target) {
        FilesBelow(Lookup(root, srcDir).value, target, q);
        assert q == target + q[|target|..];
        FilesAtIsLookup(root, srcDir, target, q[|target|..]);
      }
    }
  }
}
