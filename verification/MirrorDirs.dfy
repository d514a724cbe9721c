/** The directories that a walk makes, and where a walk that fails stops. */
module MirrorDirs {
  import opened Prelude
  import opened Mirror
  import opened MirrorWalk

  predicate IsDir(root: Node, p: Path) {
    Lookup(root, p).Some? && Lookup(root, p).value.Dir?
  }

  // ---- no directory goes

  lemma {:induction false} NodeKeepsDirs(n: Node, src: Path, at: Path, l: Local, w: World)
    ensures l.dirs <= WalkNode(n, src, at, l, w).1.dirs
    decreases n, 0
  {
    var (ok, l1) := OpenAt(src, at, true, l, w);
    if ok && n.Dir? {
      EntriesKeepDirs(n.entries, |n.entries|, src, at, l1, w);
    }
  }

  lemma {:induction false} EntriesKeepDirs(es: seq<Entry>, k: nat, src: Path, at: Path, l: Local, w: World)
    requires k <= |es|
    ensures l.dirs <= WalkEntries(es, k, src, at, l, w).1.dirs
    decreases es, k
  {
    if k > 0 {
      EntriesKeepDirs(es, k - 1, src, at, l, w);
      EntryKeepsDirs(es[k - 1], src, at, WalkEntries(es, k - 1, src, at, l, w).1, w);
    }
  }

  lemma {:induction false} EntryKeepsDirs(e: Entry, src: Path, at: Path, l: Local, w: World)
    ensures l.dirs <= WalkOne(e, src, at, l, w).1.dirs
    decreases e
  {
    match e.node
    case Dir(_) => NodeKeepsDirs(e.node, src + [e.name], at + [e.name], l, w);
    case File(bytes) =>
  }

  // ---- every remote directory is made

  /** A successful walk makes the directory for every remote directory. */
  lemma {:induction false} NodeMakesDirs(n: Node, src: Path, at: Path, l: Local, w: World, p: Path)
    requires WalkNode(n, src, at, l, w).0 && n.Dir? && IsDir(n, p)
    ensures at + p in WalkNode(n, src, at, l, w).1.dirs
    decreases n, 0
  {
    var l1 := OpenAt(src, at, true, l, w).1;
    if p == [] {
      assert at + p == at == at[..|at|];
      assert at in l1.dirs;
      EntriesKeepDirs(n.entries, |n.entries|, src, at, l1, w);
    } else {
      var i :| 0 <= i < |n.entries| && n.entries[i] == Entry(p[0], Find(n.entries, p[0]).value);
      EntriesMakeDirs(n.entries, |n.entries|, src, at, l1, w, i, p);
    }
  }

  lemma {:induction false} EntriesMakeDirs(es: seq<Entry>, k: nat, src: Path, at: Path, l: Local, w: World, i: nat,
                                           p: Path)
    requires i < k <= |es| && WalkEntries(es, k, src, at, l, w).0
    requires p != [] && es[i].name == p[0] && IsDir(es[i].node, p[1..])
    ensures at + p in WalkEntries(es, k, src, at, l, w).1.dirs
    decreases es, k
  {
    var l1 := WalkEntries(es, k - 1, src, at, l, w).1;
    if i == k - 1 {
      var below := at + [p[0]];
      assert below + p[1..] == at + p;
      assert es[i].node.Dir?;
      NodeMakesDirs(es[i].node, src + [p[0]], below, l1, w, p[1..]);
    } else {
      EntriesMakeDirs(es, k - 1, src, at, l, w, i, p);
      EntryKeepsDirs(es[k - 1], src, at, l1, w);
    }
  }

  // ---- and nothing else

  /** A directory that is new lies on the way to the place, or stands for a remote one. */
  lemma {:induction false} NodeMakesOnly(n: Node, src: Path, at: Path, l: Local, w: World, q: Path)
    requires ValidTree(n) && n.Dir? && q in WalkNode(n, src, at, l, w).1.dirs && q !in l.dirs
    ensures q <= at || (at <= q && IsDir(n, q[|at|..]))
    decreases n, 0
  {
    var (ok, l1) := OpenAt(src, at, true, l, w);
    if q !in l1.dirs {
      EntriesMakeOnly(n.entries, |n.entries|, src, at, l1, w, q);
    }
  }

  lemma {:induction false} EntriesMakeOnly(es: seq<Entry>, k: nat, src: Path, at: Path, l: Local, w: World, q: Path)
    requires ValidTree(Dir(es)) && k <= |es|
    requires q in WalkEntries(es, k, src, at, l, w).1.dirs && q !in l.dirs
    ensures q <= at || (at <= q && IsDir(Dir(es), q[|at|..]))
    decreases es, k
  {
    var (ok, l1) := WalkEntries(es, k - 1, src, at, l, w);
    if q in l1.dirs {
      EntriesMakeOnly(es, k - 1, src, at, l, w, q);
    } else {
      var e, below := es[k - 1], at + [es[k - 1].name];
      assert e.node.Dir?;
      NodeMakesOnly(e.node, src + [e.name], below, l1, w, q);
      BelowEntry(es, k - 1, at, q);
    }
  }

  lemma BelowEntry(es: seq<Entry>, i: nat, at: Path, q: Path)
    requires ValidTree(Dir(es)) && i < |es| && es[i].node.Dir?
    requires var below := at + [es[i].name]; q <= below || (below <= q && IsDir(es[i].node, q[|below|..]))
    ensures q <= at || (at <= q && IsDir(Dir(es), q[|at|..]))
  {
    var below := at + [es[i].name];
    FindEntry(es, i);
    if |q| <= |at| {
      assert q == below[..|q|] == at[..|q|];
    } else {
      assert below <= q by {
        if q <= below {
          assert q == below[..|q|] == below;
        }
      }
      assert q[..|below|] == below;
      assert q[..|at|] == below[..|at|] == at;
      var p := q[|at|..];
      assert p[0] == q[|at|] == below[|at|] == es[i].name;
      assert p[1..] == q[|below|..];
      assert q == below ==> p[1..] == [];
      assert IsDir(es[i].node, p[1..]);
      assert Lookup(Dir(es), p) == Lookup(es[i].node, p[1..]);
    }
  }

  /** For a whole walk, wherever it starts. */
  lemma WalkAtMakesDirs(root: Node, src: Path, at: Path, l: Local, w: World)
    requires ValidTree(root)
    ensures var (ok, l') := WalkAt(root, src, at, l, w);
            && l.dirs <= l'.dirs
            && (ok ==> forall p | IsDir(root, src + p) :: at + p in l'.dirs)
            && forall q | q in l'.dirs && q !in l.dirs :: q <= at || (at <= q && IsDir(root, src + q[|at|..]))
  {
    var n := Lookup(root, src);
    if n.Some? {
      LookupValid(root, src);
      NodeKeepsDirs(n.value, src, at, l, w);
      var (ok, l') := WalkAt(root, src, at, l, w);
      if ok {
        forall p | IsDir(root, src + p) ensures at + p in l'.dirs {
          LookupAppend(root, src, p);
          NodeMakesDirs(n.value, src, at, l, w, p);
        }
      }
      forall q | q in l'.dirs && q !in l.dirs ensures q <= at || (at <= q && IsDir(root, src + q[|at|..])) {
        if n.value.Dir? {
          NodeMakesOnly(n.value, src, at, l, w, q);
        }
        if at <= q {
          LookupAppend(root, src, q[|at|..]);
        }
      }
    }
  }

  // ---- a failure is the last thing that happens

  /** The entry that fails, after those that succeeded; nothing at the places of later ones has changed. */
  lemma {:induction false} FailureStops(es: seq<Entry>, k: nat, src: Path, at: Path, l: Local, w: World)
    returns (i: nat)
    requires ValidTree(Dir(es)) && k <= |es| && !WalkEntries(es, k, src, at, l, w).0
    ensures i < k && WalkEntries(es, i, src, at, l, w).0
    ensures !WalkOne(es[i], src, at, WalkEntries(es, i, src, at, l, w).1, w).0
    ensures WalkEntries(es, k, src, at, l, w) == WalkOne(es[i], src, at, WalkEntries(es, i, src, at, l, w).1, w)
    ensures OnlyAt(l.files, WalkEntries(es, k, src, at, l, w).1.files, FilesOfEntries(es, i + 1, at))
    decreases k
  {
    if WalkEntries(es, k - 1, src, at, l, w).0 {
      i := k - 1;
      EntriesAreSound(es, k, src, at, l, w);
    } else {
      i := FailureStops(es, k - 1, src, at, l, w);
    }
  }

  /**
   A download that cannot begin changes nothing: after a cancellation, onto a directory, or resumed without its file.
   One that fails later leaves at its own place what it left there, and nothing anywhere else.
   */
  lemma FailedDownloads(bytes: seq<byte>, at: Path, l: Local, w: World)
    ensures var (ok, l') := DownloadTo(bytes, at, l, w);
            var blocked := l.ctxDone || at in l.dirs || (w.resumed(at) && at !in l.files);
            && (ok ==> !blocked && !w.outcome(at).Fails?)
            && (blocked ==> l' == l)
            && (!blocked && w.outcome(at).Fails? ==>
                  && l'.dirs == l.dirs && !l'.ctxDone
                  && (w.outcome(at).left.None? ==> l'.files == l.files)
                  && (w.outcome(at).left.Some? ==> l'.files == l.files[at := w.outcome(at).left.value]))
            && forall q | q != at :: (q in l'.files <==> q in l.files) && (q in l.files ==> l'.files[q] == l.files[q])
  {
  }

  /** A directory cannot be opened if the system refuses it or a file is in the way; then nothing is made. */
  lemma FailedOpen(src: Path, at: Path, found: bool, l: Local, w: World)
    ensures var (ok, l') := OpenAt(src, at, found, l, w);
            var inTheWay := exists q :: q in l.files && q <= at;
            && (w.mkdirRefused(src) || inTheWay ==> !ok && l' == l)
            && (!w.mkdirRefused(src) && !inTheWay ==> l'.files == l.files && forall q | q <= at :: q in l'.dirs)
  {
    forall q | q <= at ensures q == at[..|q|] {
    }
    forall k | 0 <= k <= |at| ensures at[..k] <= at {
    }
  }
}
