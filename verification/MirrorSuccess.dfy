/** When the success of a recursive download means that the remote tree is there. */
module MirrorSuccess {
  import opened Prelude
  import opened Chunks
  import opened Files
  import opened Mirror
  import opened MirrorWalk
  import opened MirrorCopy

  // ---- walks that succeed

  /** What a walk asks of the place of a directory and of a file. */
  ghost predicate PlaceFine(n: Node, src: Path, at: Path, w: World) {
    match n
    case Dir(_) => !w.mkdirRefused(src) && !w.statLost(src) && !w.chmodRefused(src) && !w.readDirLost(src)
    case File(_) => !w.outcome(at).Fails? && !w.chmodRefused(src)
  }

  /** At every place of a tree. */
  ghost predicate Fine(n: Node, src: Path, at: Path, w: World) {
    && PlaceFine(n, src, at, w)
    && (n.Dir? ==> forall i | 0 <= i < |n.entries| ::
          var e := n.entries[i]; Fine(e.node, src + [e.name], at + [e.name], w))
  }

  /** Nothing is resumed, and nothing that is checked is cut short. */
  ghost predicate Smooth(w: World, places: Contents) {
    (forall p :: !w.resumed(p)) && (w.verify ==> NoneCut(w, places))
  }

  /** Nothing is in the way of what is to come at or below a path. */
  ghost predicate Clear(l: Local, at: Path) {
    && !l.ctxDone
    && (forall q | q in l.files :: !(q <= at) && !(at <= q))
    && (forall q | q in l.dirs :: !(at <= q))
  }

  /** What has come lies at or below the path, but for the directories on the way to it. */
  ghost predicate Grown(l: Local, l': Local, at: Path) {
    && (forall q | q in l'.files :: q in l.files || at <= q)
    && (forall q | q in l'.dirs :: q in l.dirs || at <= q || q <= at)
  }

  // ---- cut short last

  ghost predicate NoneCut(w: World, places: Contents) {
    forall q | q in places :: !Cut(w, q)
  }

  ghost predicate OnlyLastCut(w: World, places: Contents, last: Option<Path>) {
    forall q | q in places && Cut(w, q) :: last == Some(q)
  }

  lemma {:induction false} LastIsFile(n: Node, at: Path)
    requires LastFile(n, at).Some?
    ensures LastFile(n, at).value in FilesOf(n, at)
    decreases n, 0
  {
    if n.Dir? {
      var e := n.entries[|n.entries| - 1];
      LastIsFile(e.node, at + [e.name]);
    }
  }

  /** If only the last of some entries is cut short, none of the earlier is. */
  lemma EarlierUncut(w: World, es: seq<Entry>, k: nat, at: Path)
    requires ValidTree(Dir(es)) && 0 < k <= |es|
    requires OnlyLastCut(w, FilesOfEntries(es, k, at), LastOf(es, k, at))
    ensures NoneCut(w, FilesOfEntries(es, k - 1, at))
    ensures var e, below := es[k - 1], at + [es[k - 1].name];
            OnlyLastCut(w, FilesOf(e.node, below), LastFile(e.node, below))
  {
    EntriesApart(es, k - 1, at);
    if LastOf(es, k, at).Some? {
      LastIsFile(es[k - 1].node, at + [es[k - 1].name]);
    }
  }

  // ---- such a walk succeeds

  lemma {:induction false} SmoothNode(n: Node, src: Path, at: Path, l: Local, w: World)
    requires ValidTree(n) && n.Dir? && Fine(n, src, at, w) && Smooth(w, FilesOf(n, at)) && Clear(l, at)
    requires OnlyLastCut(w, FilesOf(n, at), LastFile(n, at))
    ensures WalkNode(n, src, at, l, w).0 && Grown(l, WalkNode(n, src, at, l, w).1, at)
    ensures NoneCut(w, FilesOf(n, at)) ==> !WalkNode(n, src, at, l, w).1.ctxDone
    decreases n, 0
  {
    forall k | 0 <= k <= |at| ensures at[..k] !in l.files {
      assert at[..k] <= at;
    }
    var l1 := OpenAt(src, at, true, l, w).1;
    forall q | q in Prefixes(at) ensures q <= at {
    }
    SmoothEntries(n.entries, |n.entries|, src, at, l1, w);
    forall i: nat, q | GrownBy(n.entries, i, at, q) ensures at <= q {
      assert at <= at + [n.entries[i].name];
    }
  }

  /** An entry before the k-th has put something there. */
  predicate GrownBy(es: seq<Entry>, i: nat, at: Path, q: Path) {
    i < |es| && at + [es[i].name] <= q
  }

  ghost predicate GrownByEntries(l: Local, l': Local, es: seq<Entry>, k: nat, at: Path) {
    && (forall q | q in l'.files :: q in l.files || exists i: nat :: i < k && GrownBy(es, i, at, q))
    && (forall q | q in l'.dirs :: q in l.dirs || q <= at || exists i: nat :: i < k && GrownBy(es, i, at, q))
  }

  lemma ClearForNext(l: Local, l': Local, es: seq<Entry>, k: nat, at: Path)
    requires ValidTree(Dir(es)) && !l'.ctxDone && k < |es| && GrownByEntries(l, l', es, k, at)
    requires forall q | q in l.files :: !(q <= at) && !(at <= q)
    requires forall q | q in l.dirs :: q <= at || !(at <= q)
    ensures Clear(l', at + [es[k].name])
  {
    var next := at + [es[k].name];
    forall q | at < q && (q <= next || next <= q) ensures q[|at|] == es[k].name {
      assert next[|at|] == es[k].name;
    }
    forall i: nat, q | i < k && GrownBy(es, i, at, q) ensures !(q <= next) && !(next <= q) {
      assert (at + [es[i].name])[|at|] == es[i].name == q[|at|];
    }
    forall q | q in l.files ensures !(q <= next) && !(next <= q) {
      PrefixOfNext(at, es[k].name, q);
    }
    forall q | q in l.dirs ensures !(next <= q) {
      PrefixOfNext(at, es[k].name, q);
    }
  }

  lemma PrefixOfNext(at: Path, name: string, q: Path)
    ensures q <= at + [name] ==> q <= at || at <= q
    ensures at + [name] <= q ==> at <= q && |at| < |q|
  {
    var next := at + [name];
    if q <= next {
      assert q == next[..|q|];
      assert |q| <= |at| ==> q == at[..|q|];
    }
    if next <= q {
      assert q[..|at|] == next[..|at|] == at;
    }
  }

  lemma {:induction false} SmoothEntries(es: seq<Entry>, k: nat, src: Path, at: Path, l: Local, w: World)
    requires ValidTree(Dir(es)) && k <= |es| && Smooth(w, FilesOfEntries(es, k, at)) && !l.ctxDone
    requires forall i | 0 <= i < k :: Fine(es[i].node, src + [es[i].name], at + [es[i].name], w)
    requires OnlyLastCut(w, FilesOfEntries(es, k, at), LastOf(es, k, at))
    requires forall q | q in l.files :: !(q <= at) && !(at <= q)
    requires forall q | q in l.dirs :: q <= at || !(at <= q)
    ensures WalkEntries(es, k, src, at, l, w).0
    ensures GrownByEntries(l, WalkEntries(es, k, src, at, l, w).1, es, k, at)
    ensures NoneCut(w, FilesOfEntries(es, k, at)) ==> !WalkEntries(es, k, src, at, l, w).1.ctxDone
    decreases es, k
  {
    if k > 0 {
      EarlierUncut(w, es, k, at);
      SmoothEntries(es, k - 1, src, at, l, w);
      var l1 := WalkEntries(es, k - 1, src, at, l, w).1;
      var e := es[k - 1];
      ClearForNext(l, l1, es, k - 1, at);
      SmoothOne(e, src, at, l1, w);
      GrownOneMore(l, l1, WalkOne(e, src, at, l1, w).1, es, k, at);
    }
  }

  lemma GrownOneMore(l: Local, l1: Local, l2: Local, es: seq<Entry>, k: nat, at: Path)
    requires 0 < k <= |es| && GrownByEntries(l, l1, es, k - 1, at) && Grown(l1, l2, at + [es[k - 1].name])
    ensures GrownByEntries(l, l2, es, k, at)
  {
    var next := at + [es[k - 1].name];
    forall q | q in l2.files ensures next <= q ==> GrownBy(es, k - 1, at, q) {
    }
    forall q | q in l2.dirs ensures (next <= q ==> GrownBy(es, k - 1, at, q)) && (q <= next ==> q <= at || next <= q) {
      assert q <= next ==> q == next[..|q|];
      assert at == next[..|at|];
    }
  }

  lemma {:induction false} SmoothOne(e: Entry, src: Path, at: Path, l: Local, w: World)
    requires ValidTree(e.node) && Fine(e.node, src + [e.name], at + [e.name], w) && Clear(l, at + [e.name])
    requires Smooth(w, FilesOf(e.node, at + [e.name]))
    requires OnlyLastCut(w, FilesOf(e.node, at + [e.name]), LastFile(e.node, at + [e.name]))
    ensures WalkOne(e, src, at, l, w).0 && Grown(l, WalkOne(e, src, at, l, w).1, at + [e.name])
    ensures NoneCut(w, FilesOf(e.node, at + [e.name])) ==> !WalkOne(e, src, at, l, w).1.ctxDone
    decreases e
  {
    match e.node
    case Dir(_) => SmoothNode(e.node, src + [e.name], at + [e.name], l, w);
    case File(bytes) =>
  }

  /** One download is cut short before anything was moved. */
  function CutAt(p: Path, chunkSize: Positive, batch: Positive): World {
    World(chunkSize, batch, false, true, _ => false, q => if q == p then CutShort([]) else Finishes,
          _ => false, _ => false, _ => false, _ => false)
  }

  lemma {:induction false} AllFine(n: Node, src: Path, at: Path, p: Path, chunkSize: Positive, batch: Positive)
    ensures Fine(n, src, at, CutAt(p, chunkSize, batch))
    decreases n
  {
    if n.Dir? {
      forall i | 0 <= i < |n.entries|
        ensures var e := n.entries[i]; Fine(e.node, src + [e.name], at + [e.name], CutAt(p, chunkSize, batch))
      {
        AllFine(n.entries[i].node, src + [n.entries[i].name], at + [n.entries[i].name], p, chunkSize, batch);
      }
    }
  }

  lemma NothingMoved(p: Path, bytes: seq<byte>, chunkSize: Positive, batch: Positive)
    ensures Left(CutAt(p, chunkSize, batch), map[], p, bytes) == []
    ensures forall q | q != p :: Left(CutAt(p, chunkSize, batch), map[], q, bytes) == bytes
  {
    var w, ts := CutAt(p, chunkSize, batch), Tiles(0, |bytes|, chunkSize);
    if PartsPossible(bytes, w.chunkSize, w.batch, []) {
      assert |ts| == 0;
    }
    forall q | q != p ensures Left(w, map[], q, bytes) == bytes {
      assert Tail([], |bytes|) == [];
    }
  }

  /**
   A success that is none: if the last thing that a walk into an empty place comes to is a file, the walk can succeed
   and leave that file empty, and all the others whole.
   */
  lemma LastLeftEmpty(n: Node, src: Path, at: Path, p: Path, chunkSize: Positive, batch: Positive)
    requires ValidTree(n) && n.Dir? && LastFile(n, at) == Some(p)
    ensures var (ok, l) := WalkNode(n, src, at, Local(map[], {}, false), CutAt(p, chunkSize, batch));
            ok && l.files == FilesOf(n, at)[p := []]
  {
    var l, w := Local(map[], {}, false), CutAt(p, chunkSize, batch);
    AllFine(n, src, at, p, chunkSize, batch);
    SmoothNode(n, src, at, l, w);
    WalkIsSound(n, src, at, l, w);
    LastIsFile(n, at);
    var places, after := FilesOf(n, at), WalkNode(n, src, at, l, w).1.files;
    assert after == Produced(l.files, places, w);
    forall q | q in places ensures Left(w, l.files, q, places[q]) == places[p := []][q] {
      NothingMoved(p, places[q], chunkSize, batch);
    }
  }

  // ---- when a walk succeeds

  lemma {:induction false} NodeSucceedsFine(n: Node, src: Path, at: Path, l: Local, w: World)
    requires ValidTree(n) && n.Dir? && WalkNode(n, src, at, l, w).0
    ensures Fine(n, src, at, w) && (w.verify ==> NoneCut(w, FilesOf(n, at)))
    decreases n, 0
  {
    EntriesSucceedFine(n.entries, |n.entries|, src, at, OpenAt(src, at, true, l, w).1, w);
  }

  lemma {:induction false} EntriesSucceedFine(es: seq<Entry>, k: nat, src: Path, at: Path, l: Local, w: World)
    requires ValidTree(Dir(es)) && k <= |es| && WalkEntries(es, k, src, at, l, w).0
    ensures forall i | 0 <= i < k :: Fine(es[i].node, src + [es[i].name], at + [es[i].name], w)
    ensures w.verify ==> NoneCut(w, FilesOfEntries(es, k, at))
    decreases es, k
  {
    if k > 0 {
      EntriesSucceedFine(es, k - 1, src, at, l, w);
      EntrySucceedsFine(es[k - 1], src, at, WalkEntries(es, k - 1, src, at, l, w).1, w);
    }
  }

  lemma {:induction false} EntrySucceedsFine(e: Entry, src: Path, at: Path, l: Local, w: World)
    requires ValidTree(e.node) && WalkOne(e, src, at, l, w).0
    ensures Fine(e.node, src + [e.name], at + [e.name], w)
    ensures w.verify ==> NoneCut(w, FilesOf(e.node, at + [e.name]))
    decreases e
  {
    match e.node
    case Dir(_) => NodeSucceedsFine(e.node, src + [e.name], at + [e.name], l, w);
    case File(bytes) =>
  }

  lemma {:induction false} FineAt(n: Node, src: Path, at: Path, w: World, p: Path)
    requires Fine(n, src, at, w) && Lookup(n, p).Some?
    ensures PlaceFine(Lookup(n, p).value, src + p, at + p, w)
    decreases |p|
  {
    if p == [] {
      assert src + p == src && at + p == at;
    } else {
      var name := p[0];
      var i :| 0 <= i < |n.entries| && n.entries[i] == Entry(name, Find(n.entries, name).value);
      assert src + [name] + p[1..] == src + p && at + [name] + p[1..] == at + p;
      FineAt(n.entries[i].node, src + [name], at + [name], w, p[1..]);
    }
  }

  lemma {:induction false} FineEverywhere(n: Node, src: Path, at: Path, w: World)
    requires ValidTree(n) && forall p | Lookup(n, p).Some? :: PlaceFine(Lookup(n, p).value, src + p, at + p, w)
    ensures Fine(n, src, at, w)
    decreases n
  {
    assert Lookup(n, []) == Some(n) && src + [] == src && at + [] == at;
    if n.Dir? {
      forall i | 0 <= i < |n.entries|
        ensures var e := n.entries[i]; Fine(e.node, src + [e.name], at + [e.name], w)
      {
        var e := n.entries[i];
        FindEntry(n.entries, i);
        forall p | Lookup(e.node, p).Some?
          ensures PlaceFine(Lookup(e.node, p).value, src + [e.name] + p, at + [e.name] + p, w)
        {
          assert ([e.name] + p)[0] == e.name && ([e.name] + p)[1..] == p;
          assert Lookup(n, [e.name] + p) == Lookup(e.node, p);
          assert src + ([e.name] + p) == src + [e.name] + p && at + ([e.name] + p) == at + [e.name] + p;
        }
        FineEverywhere(e.node, src + [e.name], at + [e.name], w);
      }
    }
  }

  /**
   A walk of fresh downloads with nothing local in its way succeeds exactly if no request, system call or download on
   it fails, and no download is cut short but, without hash checking, that of the last thing it comes to.
   */
  lemma WalkSucceedsIff(n: Node, src: Path, at: Path, l: Local, w: World)
    requires ValidTree(n) && n.Dir? && Clear(l, at) && forall q :: !w.resumed(q)
    ensures WalkNode(n, src, at, l, w).0 <==>
            && (forall p | Lookup(n, p).Some? :: PlaceFine(Lookup(n, p).value, src + p, at + p, w))
            && (forall q | q in FilesOf(n, at) && Cut(w, q) :: !w.verify && LastFile(n, at) == Some(q))
  {
    if WalkNode(n, src, at, l, w).0 {
      NodeSucceedsFine(n, src, at, l, w);
      NodeCutsLast(n, src, at, l, w);
      forall p | Lookup(n, p).Some? ensures PlaceFine(Lookup(n, p).value, src + p, at + p, w) {
        FineAt(n, src, at, w, p);
      }
    } else if forall p | Lookup(n, p).Some? :: PlaceFine(Lookup(n, p).value, src + p, at + p, w) {
      if forall q | q in FilesOf(n, at) && Cut(w, q) :: !w.verify && LastFile(n, at) == Some(q) {
        FineEverywhere(n, src, at, w);
        SmoothNode(n, src, at, l, w);
      }
    }
  }

  // ---- the exact condition

  /** Fresh downloads only, with or without hash checking and cancellation. */
  ghost predicate FreshWith(w: World, chunkSize: nat, batch: nat, verify: bool, cancelled: bool) {
    && w.chunkSize == chunkSize && w.batch == batch
    && w.verify == verify && w.cancelled == cancelled
    && forall q :: !w.resumed(q)
  }

  /** If the walk succeeds, the tree is mirrored. */
  ghost predicate SuccessMirrors(n: Node, src: Path, at: Path, l: Local, w: World) {
    WalkNode(n, src, at, l, w).0 ==> Whole(WalkNode(n, src, at, l, w).1.files, FilesOf(n, at))
  }

  /** From any local files, and whatever else happens. */
  ghost predicate AlwaysMirrors(n: Node, src: Path, at: Path, chunkSize: nat, batch: nat, verify: bool,
                                cancelled: bool) {
    forall l: Local, w: World :: FreshWith(w, chunkSize, batch, verify, cancelled) ==> SuccessMirrors(n, src, at, l, w)
  }

  /** The last thing that a walk comes to is a file with anything in it. */
  predicate EndsInBytes(n: Node, at: Path) {
    var last := LastFile(n, at);
    last.Some? && last.value in FilesOf(n, at) && FilesOf(n, at)[last.value] != []
  }

  /**
   When success of a walk of fresh downloads alone means that the tree is mirrored: exactly if hashes are checked, or
   the context is not cancelled, or the last thing that the walk comes to is not a file with anything in it.
   */
  lemma SuccessMirrorsIff(n: Node, src: Path, at: Path, chunkSize: Positive, batch: Positive, verify: bool,
                          cancelled: bool)
    requires ValidTree(n) && n.Dir?
    ensures AlwaysMirrors(n, src, at, chunkSize, batch, verify, cancelled) <==>
            verify || !cancelled || !EndsInBytes(n, at)
  {
    if verify || !cancelled || !EndsInBytes(n, at) {
      forall l, w | FreshWith(w, chunkSize, batch, verify, cancelled) ensures SuccessMirrors(n, src, at, l, w) {
        FreshMirrors(n, src, at, l, w);
      }
    } else {
      var p := LastFile(n, at).value;
      LastLeftEmpty(n, src, at, p, chunkSize, batch);
      var w := CutAt(p, chunkSize, batch);
      assert FreshWith(w, chunkSize, batch, verify, cancelled);
      assert !SuccessMirrors(n, src, at, Local(map[], {}, false), w);
    }
  }

  lemma FreshMirrors(n: Node, src: Path, at: Path, l: Local, w: World)
    requires ValidTree(n) && n.Dir? && forall q :: !w.resumed(q)
    requires w.verify || !w.cancelled || !EndsInBytes(n, at)
    ensures SuccessMirrors(n, src, at, l, w)
  {
    WalkIsSound(n, src, at, l, w);
    var (ok, l') := WalkNode(n, src, at, l, w);
    if ok && !w.verify {
      NodeCutsLast(n, src, at, l, w);
      forall q | q in FilesOf(n, at) ensures q in l'.files && l'.files[q] == FilesOf(n, at)[q] {
        LeftFacts(w, l.files, q, FilesOf(n, at)[q]);
      }
    }
  }
}
