/**
 The recursive directory download: walkRemoteDir (cp_from_host_dir.go) over a remote tree that does not change
 meanwhile. A file's download is one operation here; MirrorDownloads shows that its results are exactly those of runs of
 the Transfer system. A download that is cut short by a cancellation may succeed, but it is the last that can: a request
 made under a done context gets no response.
 */
module MirrorWalk {
  import opened Prelude
  import opened Chunks
  import opened Files
  import opened PartialCopy
  import opened Mirror

  /**
   How a file's download ends apart from what can be seen in advance: it runs through, it fails and leaves
   something behind, or processChunks returns nil although of some chunks only these parts were moved, which takes
   a cancelled context.
   */
  datatype Outcome = Finishes | Fails(left: Option<seq<byte>>) | CutShort(parts: seq<nat>)

  type Positive = n: nat | n > 0 witness 1

  /** What is found and happens outside: by local path for downloads, by remote path for the rest. */
  datatype World = World(
    chunkSize: Positive,
    batch: Positive,
    verify: bool,
    cancelled: bool,                            // at some time during the walk
    resumed: Path -> bool,                      // a usable state file is found
    outcome: Path -> Outcome,
    mkdirRefused: Path -> bool,
    statLost: Path -> bool,
    readDirLost: Path -> bool,
    chmodRefused: Path -> bool)

  /** What is there locally, and whether a download has found the context done. */
  datatype Local = Local(files: Contents, dirs: set<Path>, ctxDone: bool)

  // ---- one download

  /** What a download starts from: a resumed one does not truncate. */
  function Base(files: Contents, at: Path, resumed: bool): seq<byte> {
    if resumed && at in files then files[at] else []
  }

  predicate Cut(w: World, at: Path) {
    w.cancelled && w.outcome(at).CutShort?
  }

  /** Parts of the chunks, of which at most `batch` are neither whole nor missing. */
  predicate PartsPossible(bytes: seq<byte>, chunkSize: Positive, batch: nat, parts: seq<nat>) {
    var ts := Tiles(0, |bytes|, chunkSize);
    PartsFit(bytes, ts, parts) && |set i | 0 <= i < |ts| && 0 < parts[i] < ts[i].size| <= batch
  }

  /** What a download that returned nil leaves, whether or not it moved everything. */
  function Left(w: World, files: Contents, at: Path, bytes: seq<byte>): seq<byte> {
    var base, ts := Base(files, at, w.resumed(at)), Tiles(0, |bytes|, w.chunkSize);
    if !Cut(w, at) then bytes + Tail(base, |bytes|)
    else if PartsPossible(bytes, w.chunkSize, w.batch, w.outcome(at).parts)
    then CopyParts(bytes, ts, w.outcome(at).parts, base, |ts|)
    else base
  }

  /**
   downloadFile. The hash check fails if the target is not the source in the end, and gets no response if the context
   is done by then.
   */
  function DownloadTo(bytes: seq<byte>, at: Path, l: Local, w: World): (bool, Local) {
    if l.ctxDone || at in l.dirs || (w.resumed(at) && at !in l.files) then (false, l)
    else match w.outcome(at)
      case Fails(None) => (false, l)
      case Fails(Some(left)) => (false, l.(files := l.files[at := left]))
      case _ =>
        var left := Left(w, l.files, at, bytes);
        (!w.verify || (!Cut(w, at) && left == bytes), l.(files := l.files[at := left], ctxDone := Cut(w, at)))
  }

  // ---- the walk as a function

  function Prefixes(path: Path): set<Path> {
    set k | 0 <= k <= |path| :: path[..k]
  }

  /** The target directory is made and given its mode, and the remote one is listed, if it is there. */
  function OpenAt(src: Path, at: Path, found: bool, l: Local, w: World): (bool, Local) {
    if w.mkdirRefused(src) || exists k | 0 <= k <= |at| :: at[..k] in l.files then (false, l)
    else
      (!l.ctxDone && !w.statLost(src) && !(found && w.chmodRefused(src)) && !w.readDirLost(src),
       l.(dirs := l.dirs + Prefixes(at)))
  }

  function WalkNode(n: Node, src: Path, at: Path, l: Local, w: World): (bool, Local)
    decreases n, 0
  {
    var (ok, l1) := OpenAt(src, at, true, l, w);
    if !ok || n.File? then (false, l1) else WalkEntries(n.entries, |n.entries|, src, at, l1, w)
  }

  function WalkEntries(es: seq<Entry>, k: nat, src: Path, at: Path, l: Local, w: World): (bool, Local)
    requires k <= |es|
    decreases es, k
  {
    if k == 0 then (true, l)
    else
      var (ok, l1) := WalkEntries(es, k - 1, src, at, l, w);
      if ok then WalkOne(es[k - 1], src, at, l1, w) else (false, l1)
  }

  function WalkOne(e: Entry, src: Path, at: Path, l: Local, w: World): (bool, Local)
    decreases e
  {
    match e.node
    case Dir(_) => WalkNode(e.node, src + [e.name], at + [e.name], l, w)
    case File(bytes) =>
      var (moved, l2) := DownloadTo(bytes, at + [e.name], l, w);
      (moved && !w.chmodRefused(src + [e.name]), l2)
  }

  function WalkAt(root: Node, src: Path, at: Path, l: Local, w: World): (bool, Local) {
    var n := Lookup(root, src);
    if n.Some? then WalkNode(n.value, src, at, l, w) else (false, OpenAt(src, at, false, l, w).1)
  }

  // ---- the walk as the code does it

  class LocalFs {
    var files: Contents
    var dirs: set<Path>
    var ctxDone: bool

    constructor (files: Contents, dirs: set<Path>)
      ensures View() == Local(files, dirs, false)
    {
      this.files, this.dirs, this.ctxDone := files, dirs, false;
    }

    function View(): Local
      reads this
    {
      Local(files, dirs, ctxDone)
    }

    /** os.MkdirAll makes every directory on the way; a file in the way, or the system, may refuse. */
    method MkdirAll(path: Path, refused: bool) returns (ok: bool)
      modifies `dirs
      ensures ok <==> !refused && forall k | 0 <= k <= |path| :: path[..k] !in files
      ensures dirs == if ok then old(dirs) + Prefixes(path) else old(dirs)
    {
      ok := !refused && forall k | 0 <= k <= |path| :: path[..k] !in files;
      if ok {
        dirs := dirs + Prefixes(path);
      }
    }

    /** Stat, load the state, open the target, move the chunks, check the hash. */
    method Download(root: Node, src: Path, target: Path, w: World) returns (ok: bool)
      modifies `files, `ctxDone
      ensures !IsFile(root, src) ==> !ok && View() == old(View())
      ensures IsFile(root, src) ==>
                (ok, View()) == DownloadTo(Lookup(root, src).value.bytes, target, old(View()), w)
    {
      var found := Lookup(root, src);
      if ctxDone || found.None? || found.value.Dir? {
        return false;
      }
      if target in dirs || (w.resumed(target) && target !in files) {
        return false;
      }
      var bytes := found.value.bytes;
      match w.outcome(target)
      case Fails(left) =>
        if left.Some? {
          files := files[target := left.value];
        }
        return false;
      case _ =>
        files := files[target := Left(w, files, target, bytes)];
        ctxDone := Cut(w, target);
        return !w.verify || (!ctxDone && files[target] == bytes);
    }
  }

  method OpenDir(fs: LocalFs, root: Node, srcDir: Path, target: Path, w: World) returns (listing: Option<seq<Entry>>)
    modifies fs`dirs
    ensures var (ok, l) := OpenAt(srcDir, target, Lookup(root, srcDir).Some?, old(fs.View()), w);
            fs.View() == l && listing == if ok then EntriesAt(root, srcDir) else None
  {
    var made := fs.MkdirAll(target, w.mkdirRefused(srcDir));
    if !made || fs.ctxDone || w.statLost(srcDir) {
      return None;
    }
    if Lookup(root, srcDir).Some? && w.chmodRefused(srcDir) {
      return None;
    }
    if w.readDirLost(srcDir) {
      return None;
    }
    return EntriesAt(root, srcDir);
  }

  /** One entry of the listing: a directory is walked, a file downloaded. */
  method WalkEntry(fs: LocalFs, root: Node, srcDir: Path, e: Entry, ghost i: nat, target: Path, w: World)
    returns (ok: bool)
    requires ValidTree(root) && EntriesAt(root, srcDir).Some? && i < |EntriesAt(root, srcDir).value|
    requires e == EntriesAt(root, srcDir).value[i]
    modifies fs
    ensures (ok, fs.View()) == WalkOne(e, srcDir, target, old(fs.View()), w)
    decreases SizeAt(root, srcDir), 0
  {
    var remotePath, localPath := srcDir + [e.name], target + [e.name];
    EntryAt(root, srcDir, i);
    if e.node.Dir? {
      ok := WalkRemoteDir(fs, root, remotePath, localPath, w);
    } else {
      ok := fs.Download(root, remotePath, localPath, w);
      ok := ok && !w.chmodRefused(remotePath);
    }
  }

  /** walkRemoteDir: a loop over the listing, recursive for directories; its recursion ends with the tree. */
  method WalkRemoteDir(fs: LocalFs, root: Node, srcDir: Path, target: Path, w: World) returns (ok: bool)
    requires ValidTree(root)
    modifies fs
    ensures (ok, fs.View()) == WalkAt(root, srcDir, target, old(fs.View()), w)
    decreases SizeAt(root, srcDir), 1
  {
    var listing := OpenDir(fs, root, srcDir, target, w);
    if listing.None? {
      return false;
    }
    var es := listing.value;
    ghost var start := fs.View();
    var i := 0;
    while i < |es|
      invariant 0 <= i <= |es|
      invariant (true, fs.View()) == WalkEntries(es, i, srcDir, target, start, w)
    {
      ok := WalkEntry(fs, root, srcDir, es[i], i, target, w);
      if !ok {
        StopsEarly(es, i + 1, |es|, srcDir, target, start, w);
        return false;
      }
      i := i + 1;
    }
    return true;
  }

  lemma {:induction false} StopsEarly(es: seq<Entry>, k: nat, m: nat, src: Path, at: Path, l: Local, w: World)
    requires k <= m <= |es| && !WalkEntries(es, k, src, at, l, w).0
    ensures WalkEntries(es, m, src, at, l, w) == WalkEntries(es, k, src, at, l, w)
    decreases m
  {
    if k < m {
      StopsEarly(es, k, m - 1, src, at, l, w);
    }
  }

  // ---- what a walk leaves

  /** Nothing but the files to produce differs. */
  ghost predicate OnlyAt(before: Contents, after: Contents, places: Contents) {
    forall q | q !in places :: (q in before <==> q in after) && (q in before ==> before[q] == after[q])
  }

  function Produced(before: Contents, places: Contents, w: World): Contents {
    map q | q in places :: Left(w, before, q, places[q])
  }

  /** These files have exactly these bytes. */
  ghost predicate Whole(after: Contents, places: Contents) {
    forall q | q in places :: q in after && after[q] == places[q]
  }

  /** These files were produced, whole with hash checking, and nothing else was done. */
  ghost predicate Mirrored(w: World, before: Contents, after: Contents, places: Contents) {
    after == before + Produced(before, places, w) && (w.verify ==> Whole(after, places))
  }

  lemma ProducedTogether(start: Contents, done: Contents, one: Contents, w: World)
    ensures Produced(start, done + one, w) == Produced(start, done, w) + Produced(start, one, w)
  {
  }

  lemma ProducedApart(start: Contents, made: Contents, one: Contents, w: World)
    requires made.Keys !! one.Keys
    ensures Produced(start + made, one, w) == Produced(start, one, w)
  {
  }

  lemma OnlyTogether(start: Contents, before: Contents, after: Contents, done: Contents, one: Contents, all: Contents)
    requires OnlyAt(start, before, done) && OnlyAt(before, after, one)
    requires done.Keys <= all.Keys && one.Keys <= all.Keys
    ensures OnlyAt(start, after, all)
  {
  }

  lemma MergeTogether<K, V>(a: map<K, V>, b: map<K, V>, c: map<K, V>)
    ensures (a + b) + c == a + (b + c)
  {
  }

  /** One more batch of files, at places of its own. */
  lemma MirroredTogether(w: World, start: Contents, before: Contents, after: Contents, done: Contents, one: Contents)
    requires done.Keys !! one.Keys && Mirrored(w, start, before, done) && Mirrored(w, before, after, one)
    ensures Mirrored(w, start, after, done + one)
  {
    var made := Produced(start, done, w);
    ProducedApart(start, made, one, w);
    ProducedTogether(start, done, one, w);
    MergeTogether(start, made, Produced(start, one, w));
    if w.verify {
      forall q | q in done + one ensures q in after && after[q] == (done + one)[q] {
        assert q in one || (q in done && q in before && after[q] == before[q]);
      }
    }
  }

  /** What every walk keeps and a successful one does, for a node. */
  ghost predicate WalkSound(w: World, before: Contents, result: (bool, Local), places: Contents) {
    OnlyAt(before, result.1.files, places) && (result.0 ==> Mirrored(w, before, result.1.files, places))
  }

  lemma {:induction false} WalkIsSound(n: Node, src: Path, at: Path, l: Local, w: World)
    requires ValidTree(n) && n.Dir?
    ensures WalkSound(w, l.files, WalkNode(n, src, at, l, w), FilesOf(n, at))
    decreases n, 0
  {
    var (ok, l1) := OpenAt(src, at, true, l, w);
    assert l1.files == l.files;
    if ok {
      EntriesAreSound(n.entries, |n.entries|, src, at, l1, w);
    }
  }

  lemma SoundTogether(w: World, before: Contents, r1: (bool, Local), r2: (bool, Local), done: Contents, one: Contents)
    requires WalkSound(w, before, r1, done) && done.Keys !! one.Keys
    requires if r1.0 then WalkSound(w, r1.1.files, r2, one) else r2 == r1
    ensures WalkSound(w, before, r2, done + one)
  {
    if r1.0 {
      OnlyTogether(before, r1.1.files, r2.1.files, done, one, done + one);
      if r2.0 {
        MirroredTogether(w, before, r1.1.files, r2.1.files, done, one);
      }
    }
  }

  lemma {:induction false} EntriesAreSound(es: seq<Entry>, k: nat, src: Path, at: Path, l: Local, w: World)
    requires ValidTree(Dir(es)) && k <= |es|
    ensures WalkSound(w, l.files, WalkEntries(es, k, src, at, l, w), FilesOfEntries(es, k, at))
    decreases es, k
  {
    if k > 0 {
      EntriesAreSound(es, k - 1, src, at, l, w);
      EntriesApart(es, k - 1, at);
      var r1 := WalkEntries(es, k - 1, src, at, l, w);
      if r1.0 {
        EntryIsSound(es[k - 1], src, at, r1.1, w);
      }
      SoundTogether(w, l.files, r1, WalkEntries(es, k, src, at, l, w), FilesOfEntries(es, k - 1, at),
                    FilesOf(es[k - 1].node, at + [es[k - 1].name]));
    }
  }

  lemma {:induction false} EntryIsSound(e: Entry, src: Path, at: Path, l: Local, w: World)
    requires ValidTree(e.node)
    ensures WalkSound(w, l.files, WalkOne(e, src, at, l, w), FilesOf(e.node, at + [e.name]))
    decreases e
  {
    match e.node
    case Dir(_) => WalkIsSound(e.node, src + [e.name], at + [e.name], l, w);
    case File(bytes) =>
  }

  // ---- only the last file can be cut short

  /** The last thing a walk comes to, if that is a file. */
  function LastFile(n: Node, at: Path): Option<Path>
    decreases n, 0
  {
    match n
    case File(_) => Some(at)
    case Dir(es) => LastOf(es, |es|, at)
  }

  function LastOf(es: seq<Entry>, k: nat, at: Path): Option<Path>
    requires k <= |es|
    decreases es, k
  {
    if k == 0 then None else LastFile(es[k - 1].node, at + [es[k - 1].name])
  }

  /** A file that was cut short is the last, and the walk went no further. */
  ghost predicate CutsLast(w: World, places: Contents, last: Option<Path>, ctxDone: bool) {
    forall q | q in places && Cut(w, q) :: last == Some(q) && ctxDone
  }

  lemma {:induction false} NodeCutsLast(n: Node, src: Path, at: Path, l: Local, w: World)
    requires ValidTree(n) && n.Dir? && WalkNode(n, src, at, l, w).0
    ensures !l.ctxDone && CutsLast(w, FilesOf(n, at), LastFile(n, at), WalkNode(n, src, at, l, w).1.ctxDone)
    decreases n, 0
  {
    EntriesCutLast(n.entries, |n.entries|, src, at, OpenAt(src, at, true, l, w).1, w);
  }

  lemma {:induction false} EntriesCutLast(es: seq<Entry>, k: nat, src: Path, at: Path, l: Local, w: World)
    requires ValidTree(Dir(es)) && k <= |es| && WalkEntries(es, k, src, at, l, w).0
    ensures CutsLast(w, FilesOfEntries(es, k, at), LastOf(es, k, at), WalkEntries(es, k, src, at, l, w).1.ctxDone)
    decreases es, k
  {
    if k > 0 {
      EntriesCutLast(es, k - 1, src, at, l, w);
      EntryCutsLast(es[k - 1], src, at, WalkEntries(es, k - 1, src, at, l, w).1, w);
    }
  }

  lemma {:induction false} EntryCutsLast(e: Entry, src: Path, at: Path, l: Local, w: World)
    requires ValidTree(e.node) && WalkOne(e, src, at, l, w).0
    ensures !l.ctxDone
    ensures var below := at + [e.name];
            CutsLast(w, FilesOf(e.node, below), LastFile(e.node, below), WalkOne(e, src, at, l, w).1.ctxDone)
    decreases e
  {
    match e.node
    case Dir(_) => NodeCutsLast(e.node, src + [e.name], at + [e.name], l, w);
    case File(bytes) =>
  }

  function LastAt(root: Node, src: Path, at: Path): Option<Path> {
    var n := Lookup(root, src);
    if n.None? then None else LastFile(n.value, at)
  }

  lemma WalkAtCutsLast(root: Node, src: Path, at: Path, l: Local, w: World)
    requires ValidTree(root) && WalkAt(root, src, at, l, w).0
    ensures CutsLast(w, FilesAt(root, src, at), LastAt(root, src, at), WalkAt(root, src, at, l, w).1.ctxDone)
  {
    var n := Lookup(root, src);
    LookupValid(root, src);
    NodeCutsLast(n.value, src, at, l, w);
  }
}
