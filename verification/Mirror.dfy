/**
 Finite remote trees, looked up by path, and the files that a recursive download (cp_from_host_dir.go) is to produce
 from them.
 */
module Mirror {
  import opened Prelude

  type Path = seq<string>

  /** Regular files, by path. */
  type Contents = map<Path, seq<byte>>

  datatype Node = File(bytes: seq<byte>) | Dir(entries: seq<Entry>)
  datatype Entry = Entry(name: string, node: Node)

  /** No directory lists a name twice. */
  ghost predicate ValidTree(n: Node) {
    n.Dir? ==>
      && (forall i, j | 0 <= i < j < |n.entries| :: n.entries[i].name != n.entries[j].name)
      && (forall i | 0 <= i < |n.entries| :: ValidTree(n.entries[i].node))
  }

  function Find(es: seq<Entry>, name: string): (r: Option<Node>)
    ensures r.Some? ==> exists i | 0 <= i < |es| :: es[i] == Entry(name, r.value)
  {
    if es == [] then None
    else if es[0].name == name then Some(es[0].node)
    else Find(es[1..], name)
  }

  /** The server's view of a path below a directory. */
  function Lookup(n: Node, p: Path): Option<Node>
    decreases |p|
  {
    if p == [] then Some(n)
    else if n.File? then None
    else
      var child := Find(n.entries, p[0]);
      if child.None? then None else Lookup(child.value, p[1..])
  }

  function Size(n: Node): nat {
    match n
    case File(_) => 1
    case Dir(es) => 1 + SizeOfEntries(es)
  }

  function SizeOfEntries(es: seq<Entry>): nat {
    if es == [] then 0 else Size(es[0].node) + SizeOfEntries(es[1..])
  }

  /** The files that mirroring a tree at `at` is to produce. */
  function FilesOf(n: Node, at: Path): Contents
    decreases n, 0
  {
    match n
    case File(bytes) => map[at := bytes]
    case Dir(es) => FilesOfEntries(es, |es|, at)
  }

  function FilesOfEntries(es: seq<Entry>, k: nat, at: Path): Contents
    requires k <= |es|
    decreases es, k
  {
    if k == 0 then map[]
    else FilesOfEntries(es, k - 1, at) + FilesOf(es[k - 1].node, at + [es[k - 1].name])
  }

  lemma {:induction false} EntrySmaller(es: seq<Entry>, i: nat)
    requires i < |es|
    ensures Size(es[i].node) <= SizeOfEntries(es)
  {
    if i > 0 {
      EntrySmaller(es[1..], i - 1);
    }
  }

  lemma {:induction false} FindEntry(es: seq<Entry>, i: nat)
    requires i < |es| && forall j | 0 <= j < i :: es[j].name != es[i].name
    ensures Find(es, es[i].name) == Some(es[i].node)
  {
    if i > 0 {
      FindEntry(es[1..], i - 1);
    }
  }

  lemma {:induction false} LookupSnoc(n: Node, p: Path, name: string)
    ensures Lookup(n, p + [name]) ==
            match Lookup(n, p)
            case Some(Dir(es)) => Find(es, name)
            case _ => None
    decreases |p|
  {
    if p == [] {
      assert [] + [name] == [name] && [name][1..] == [];
    } else if n.Dir? {
      assert (p + [name])[0] == p[0] && (p + [name])[1..] == p[1..] + [name];
      var child := Find(n.entries, p[0]);
      if child.Some? {
        LookupSnoc(child.value, p[1..], name);
      }
    }
  }

  /** Everything produced lies at or below the place of the tree. */
  lemma {:induction false} FilesBelow(n: Node, at: Path, q: Path)
    requires q in FilesOf(n, at)
    ensures at <= q && (n.Dir? ==> |at| < |q|)
    decreases n, 0
  {
    if n.Dir? {
      var _ := EntriesBelow(n.entries, |n.entries|, at, q);
    }
  }

  lemma {:induction false} EntriesBelow(es: seq<Entry>, k: nat, at: Path, q: Path) returns (i: nat)
    requires k <= |es| && q in FilesOfEntries(es, k, at)
    ensures i < k && at + [es[i].name] <= q && q in FilesOf(es[i].node, at + [es[i].name])
    decreases es, k
  {
    var last := FilesOf(es[k - 1].node, at + [es[k - 1].name]);
    if q in last {
      i := k - 1;
      FilesBelow(es[i].node, at + [es[i].name], q);
    } else {
      i := EntriesBelow(es, k - 1, at, q);
    }
  }

  /** The files to produce are exactly the remote files, each at the matching path with its own bytes. */
  lemma {:induction false} FilesOfIsLookup(n: Node, at: Path, p: Path)
    requires ValidTree(n)
    ensures at + p in FilesOf(n, at) <==> Lookup(n, p).Some? && Lookup(n, p).value.File?
    ensures at + p in FilesOf(n, at) ==> FilesOf(n, at)[at + p] == Lookup(n, p).value.bytes
    decreases n, 0
  {
    match n
    case File(bytes) =>
      if p == [] {
        assert at + p == at;
      } else {
        assert |at + p| != |at|;
      }
    case Dir(es) =>
      if p == [] {
        assert at + p == at;
        if at in FilesOf(n, at) {
          FilesBelow(n, at, at);
          assert false;
        }
      } else {
        EntriesAreLookup(es, |es|, at, p);
        assert es[..|es|] == es;
      }
  }

  /** The same for the first k entries of a directory. */
  lemma {:induction false} EntriesAreLookup(es: seq<Entry>, k: nat, at: Path, p: Path)
    requires ValidTree(Dir(es)) && k <= |es| && p != []
    ensures var child := Find(es[..k], p[0]);
            var found := if child.None? then None else Lookup(child.value, p[1..]);
            && (at + p in FilesOfEntries(es, k, at) <==> found.Some? && found.value.File?)
            && (at + p in FilesOfEntries(es, k, at) ==> FilesOfEntries(es, k, at)[at + p] == found.value.bytes)
    decreases es, k
  {
    if k == 0 {
      assert es[..k] == [];
    } else {
      EntriesAreLookup(es, k - 1, at, p);
      var e := es[k - 1];
      FindSnoc(es[..k - 1], e, p[0]);
      assert es[..k] == es[..k - 1] + [e];
      var below := at + [e.name];
      assert (at + p)[|at|] == p[0];
      if e.name == p[0] {
        assert below + p[1..] == at + p;
        FilesOfIsLookup(e.node, below, p[1..]);
        FindAbsent(es[..k - 1], p[0]);
      } else if at + p in FilesOf(e.node, below) {
        EntryBelow(e, at, at + p);
        assert false;
      }
    }
  }

  lemma EntryBelow(e: Entry, at: Path, q: Path)
    requires q in FilesOf(e.node, at + [e.name])
    ensures |at| < |q| && q[|at|] == e.name
  {
    FilesBelow(e.node, at + [e.name], q);
    assert q[|at|] == (at + [e.name])[|at|];
  }

  lemma {:induction false} FindSnoc(es: seq<Entry>, e: Entry, name: string)
    ensures Find(es + [e], name) ==
            if Find(es, name).Some? then Find(es, name) else if e.name == name then Some(e.node) else None
  {
    if es == [] {
      assert [] + [e] == [e] && [e][1..] == [];
    } else {
      assert (es + [e])[1..] == es[1..] + [e];
      FindSnoc(es[1..], e, name);
    }
  }

  lemma FindAbsent(es: seq<Entry>, name: string)
    requires forall i | 0 <= i < |es| :: es[i].name != name
    ensures Find(es, name) == None
  {
  }

  function EntriesAt(root: Node, dir: Path): Option<seq<Entry>> {
    match Lookup(root, dir)
    case Some(Dir(es)) => Some(es)
    case _ => None
  }

  /** The files to produce for a remote path; none if it does not exist. */
  function FilesAt(root: Node, src: Path, at: Path): Contents {
    var n := Lookup(root, src);
    if n.None? then map[] else FilesOf(n.value, at)
  }

  lemma {:induction false} LookupValid(n: Node, p: Path)
    requires ValidTree(n) && Lookup(n, p).Some?
    ensures ValidTree(Lookup(n, p).value)
    decreases |p|
  {
    if p != [] {
      LookupValid(Find(n.entries, p[0]).value, p[1..]);
    }
  }

  lemma EntryAt(root: Node, dir: Path, i: nat)
    requires ValidTree(root) && EntriesAt(root, dir).Some? && i < |EntriesAt(root, dir).value|
    ensures var e := EntriesAt(root, dir).value[i];
            && Lookup(root, dir + [e.name]) == Some(e.node)
            && Size(e.node) < Size(Lookup(root, dir).value)
  {
    var es := EntriesAt(root, dir).value;
    LookupValid(root, dir);
    LookupSnoc(root, dir, es[i].name);
    FindEntry(es, i);
    EntrySmaller(es, i);
  }

  /** Two entries of a directory produce nothing at the same place. */
  lemma EntriesApart(es: seq<Entry>, i: nat, at: Path)
    requires ValidTree(Dir(es)) && i < |es|
    ensures FilesOfEntries(es, i, at).Keys !! FilesOf(es[i].node, at + [es[i].name]).Keys
  {
    forall q | q in FilesOfEntries(es, i, at) ensures q !in FilesOf(es[i].node, at + [es[i].name]) {
      var j := EntriesBelow(es, i, at, q);
      assert q[|at|] == (at + [es[j].name])[|at|];
      if q in FilesOf(es[i].node, at + [es[i].name]) {
        EntryBelow(es[i], at, q);
        assert false;
      }
    }
  }

  function SizeAt(root: Node, dir: Path): nat {
    var n := Lookup(root, dir);
    if n.None? then 0 else Size(n.value)
  }

  predicate IsFile(root: Node, p: Path) {
    Lookup(root, p).Some? && Lookup(root, p).value.File?
  }

  lemma {:induction false} LookupAppend(n: Node, p: Path, q: Path)
    ensures Lookup(n, p + q) == if Lookup(n, p).None? then None else Lookup(Lookup(n, p).value, q)
    decreases |p|
  {
    if p == [] {
      assert [] + q == q;
    } else if n.Dir? {
      assert (p + q)[0] == p[0] && (p + q)[1..] == p[1..] + q;
      var child := Find(n.entries, p[0]);
      if child.Some? {
        LookupAppend(child.value, p[1..], q);
      }
    }
  }

  /** FilesAt, said by looking paths up. */
  lemma FilesAtIsLookup(root: Node, srcDir: Path, target: Path, p: Path)
    requires ValidTree(root)
    ensures target + p in FilesAt(root, srcDir, target) <==> IsFile(root, srcDir + p)
    ensures IsFile(root, srcDir + p) ==>
              FilesAt(root, srcDir, target)[target + p] == Lookup(root, srcDir + p).value.bytes
  {
    LookupAppend(root, srcDir, p);
    if Lookup(root, srcDir).Some? {
      LookupValid(root, srcDir);
      FilesOfIsLookup(Lookup(root, srcDir).value, target, p);
    }
  }
}
