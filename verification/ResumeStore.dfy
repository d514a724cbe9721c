/**
 resumeState of transfer.go as one goroutine sees it: the completed set in memory, the list saved to disk,
 and the batching between them. Goroutines sharing one resumeState are the business of module Transfer.
 */
module ResumeStore {
  import opened Prelude

  datatype StateFile = StateFile(version: int, sourceSize: int, chunkSize: int, completed: seq<int>)

  predicate Increasing(xs: seq<int>) {
    forall i, j | 0 <= i < j < |xs| :: xs[i] < xs[j]
  }

  function Elements(xs: seq<int>): set<int> {
    set x | x in xs
  }

  /** What a later run gets from the state file: nothing unless version, size and chunk size fit. */
  function Loaded(file: Option<StateFile>, sourceSize: int, chunkSize: int): Option<set<int>> {
    match file
    case None => None
    case Some(f) =>
      if f.version != 1 || f.sourceSize != sourceSize || f.chunkSize != chunkSize then None
      else Some(Elements(f.completed))
  }

  /** The state file's place on disk. None: no file there, or one that does not decode. */
  class StateDisk {
    var file: Option<StateFile>

    constructor (file: Option<StateFile>)
      ensures this.file == file
    {
      this.file := file;
    }
  }

  class ResumeState {
    const disk: StateDisk
    const version: int
    const sourceSize: int
    const chunkSize: int
    const batch: int
    var completed: seq<int>
    var completedSet: set<int>
    var pending: seq<int>

    constructor (disk: StateDisk, f: StateFile, batch: int)
      ensures this.disk == disk && version == f.version && sourceSize == f.sourceSize && chunkSize == f.chunkSize
      ensures this.batch == batch && completed == f.completed && completedSet == {} && pending == []
    {
      this.disk := disk;
      version, sourceSize, chunkSize := f.version, f.sourceSize, f.chunkSize;
      this.batch := batch;
      completed, completedSet, pending := f.completed, {}, [];
    }
  }

  method LoadResumeState(disk: StateDisk, sourceSize: int, chunkSize: int, batch: int) returns (s: ResumeState?)
    ensures s == null <==> Loaded(disk.file, sourceSize, chunkSize) == None
    ensures s != null ==>
              && fresh(s) && s.disk == disk && s.version == 1 && s.batch == batch
              && s.sourceSize == sourceSize && s.chunkSize == chunkSize
              && Loaded(disk.file, sourceSize, chunkSize) == Some(s.completedSet)
              && s.pending == []
  {
    if disk.file.None? {
      return null;
    }
    var f := disk.file.value;
    if f.version != 1 || f.sourceSize != sourceSize || f.chunkSize != chunkSize {
      return null;
    }
    s := new ResumeState(disk, f, batch);
    for i := 0 to |s.completed|
      invariant fresh(s) && s.completed == f.completed && s.pending == []
      invariant s.completedSet == Elements(f.completed[..i])
    {
      assert f.completed[..i + 1] == f.completed[..i] + [f.completed[i]];
      s.completedSet := s.completedSet + {s.completed[i]};
    }
    assert f.completed[..|f.completed|] == f.completed;
  }

  /** sort.Slice on offsets that are all different. */
  method SortOffsets(xs: seq<int>) returns (ys: seq<int>)
    requires |Elements(xs)| == |xs|
    ensures Increasing(ys) && Elements(ys) == Elements(xs)
  {
    ys := [];
    for i := 0 to |xs|
      invariant Increasing(ys) && Elements(ys) == Elements(xs[..i])
    {
      Distinct(xs, i);
      assert xs[i] !in Elements(ys);
      assert xs[..i + 1] == xs[..i] + [xs[i]];
      ys := InsertOffset(ys, xs[i]);
    }
    assert xs[..|xs|] == xs;
  }

  method InsertOffset(ys: seq<int>, x: int) returns (zs: seq<int>)
    requires Increasing(ys) && x !in ys
    ensures Increasing(zs) && Elements(zs) == Elements(ys) + {x}
  {
    var k := |ys|;
    while k > 0 && ys[k - 1] > x
      invariant 0 <= k <= |ys|
      invariant forall j | k <= j < |ys| :: ys[j] > x
    {
      k := k - 1;
    }
    zs := ys[..k] + [x] + ys[k..];
    forall i, j | 0 <= i < j < |zs| ensures zs[i] < zs[j] {
      assert k > 0 ==> ys[k - 1] < x;
    }
    assert forall y :: y in ys <==> y in ys[..k] || y in ys[k..];
  }

  /** A list with as many different elements as places has no repetition. */
  lemma {:induction false} Distinct(xs: seq<int>, i: nat)
    requires |Elements(xs)| == |xs| && i < |xs|
    ensures xs[i] !in xs[..i]
  {
    if xs[i] in xs[..i] {
      var rest := xs[..i] + xs[i + 1..];
      assert Elements(xs) == Elements(rest) by {
        forall x ensures x in xs <==> x in rest {
          assert x in xs <==> x in xs[..i] || x == xs[i] || x in xs[i + 1..] by {
            assert xs == xs[..i] + [xs[i]] + xs[i + 1..];
          }
        }
      }
      ElementsBound(rest);
    }
  }

  lemma {:induction false} ElementsBound(xs: seq<int>)
    ensures |Elements(xs)| <= |xs|
  {
    if xs != [] {
      ElementsBound(xs[1..]);
      assert Elements(xs) == {xs[0]} + Elements(xs[1..]);
    }
  }

  /** A set has one increasing list: what is saved is determined by the completed set alone. */
  lemma {:induction false} IncreasingUnique(xs: seq<int>, ys: seq<int>)
    requires Increasing(xs) && Increasing(ys) && Elements(xs) == Elements(ys)
    ensures xs == ys
  {
    assert xs != [] ==> xs[0] in Elements(xs);
    assert ys != [] ==> ys[0] in Elements(ys);
    if xs != [] && ys != [] {
      assert xs[0] in Elements(ys) && ys[0] in Elements(xs);
      assert xs[0] == ys[0];
      assert Elements(xs[1..]) == Elements(xs) - {xs[0]} by { TailElements(xs); }
      assert Elements(ys[1..]) == Elements(ys) - {ys[0]} by { TailElements(ys); }
      IncreasingUnique(xs[1..], ys[1..]);
      assert xs == [xs[0]] + xs[1..] && ys == [ys[0]] + ys[1..];
    }
  }

  lemma TailElements(xs: seq<int>)
    requires Increasing(xs) && xs != []
    ensures Elements(xs[1..]) == Elements(xs) - {xs[0]}
  {
    assert forall x :: x in xs <==> x == xs[0] || x in xs[1..];
    assert xs[0] !in xs[1..];
  }

  /**
   saveResumeState: the list is written to a temporary file which is then renamed, so the state file holds
   either the old list or the whole new one. `dirMade` and `renamed` say how far the system calls got.
   */
  method SaveResumeState(s: ResumeState, dirMade: bool, renamed: bool) returns (failed: bool)
    modifies s`completed, s.disk
    ensures failed == !(dirMade && renamed)
    ensures dirMade ==> Increasing(s.completed) && Elements(s.completed) == s.completedSet
    ensures !dirMade ==> s.completed == old(s.completed)
    ensures s.disk.file == if failed then old(s.disk.file)
                           else Some(StateFile(s.version, s.sourceSize, s.chunkSize, s.completed))
  {
    if !dirMade {
      return true;
    }
    var offsets := CollectKeys(s.completedSet);
    assert Elements(offsets) == s.completedSet;
    s.completed := SortOffsets(offsets);
    if !renamed {
      return true;
    }
    s.disk.file := Some(StateFile(s.version, s.sourceSize, s.chunkSize, s.completed));
    return false;
  }

  /** addCompletedOffset: a nil state records nothing. The pending list is never emptied again. */
  method AddCompletedOffset(s: ResumeState?, offset: int, dirMade: bool, renamed: bool) returns (failed: bool)
    modifies if s == null then {} else {s as object, s.disk}
    ensures s == null ==> !failed
    ensures s != null ==>
              && s.completedSet == old(s.completedSet) + {offset}
              && s.pending == old(s.pending) + [offset]
              && (|s.pending| < s.batch ==> !failed && s.disk.file == old(s.disk.file))
              && (|s.pending| >= s.batch ==> failed == !(dirMade && renamed))
              && (|s.pending| >= s.batch && !failed ==>
                  && s.disk.file.Some?
                  && s.disk.file.value.(completed := []) == StateFile(s.version, s.sourceSize, s.chunkSize, [])
                  && Increasing(s.disk.file.value.completed)
                  && Elements(s.disk.file.value.completed) == s.completedSet)
              && (failed ==> s.disk.file == old(s.disk.file))
  {
    if s == null {
      return false;
    }
    s.completedSet := s.completedSet + {offset};
    s.pending := s.pending + [offset];
    var shouldFlush := |s.pending| >= s.batch;
    if shouldFlush {
      failed := SaveResumeState(s, dirMade, renamed);
    } else {
      failed := false;
    }
  }

  method FlushResumeState(s: ResumeState?, dirMade: bool, renamed: bool) returns (failed: bool)
    modifies if s == null then {} else {s as object, s.disk}
    ensures s == null ==> !failed
    ensures s != null ==>
              && s.completedSet == old(s.completedSet) && s.pending == old(s.pending)
              && (s.pending == [] || failed ==> s.disk.file == old(s.disk.file))
              && (s.pending == [] ==> !failed)
              && (s.pending != [] && !failed ==>
                  && s.disk.file.Some?
                  && s.disk.file.value.(completed := []) == StateFile(s.version, s.sourceSize, s.chunkSize, [])
                  && Increasing(s.disk.file.value.completed)
                  && Elements(s.disk.file.value.completed) == s.completedSet)
  {
    if s == null {
      return false;
    }
    var hasPending := |s.pending| > 0;
    if hasPending {
      failed := SaveResumeState(s, dirMade, renamed);
    } else {
      failed := false;
    }
  }

  method DeleteResumeState(s: ResumeState?, removed: bool)
    modifies if s == null then {} else {s.disk}
    ensures s != null ==> s.disk.file == if removed then None else old(s.disk.file)
  {
    if s == null {
      return;
    }
    if removed {
      s.disk.file := None;
    }
  }

  /** Load after save restores the completed set for the same transfer, and nothing for any other or another version. */
  lemma LoadAfterSave(saved: set<int>, list: seq<int>, version: int, size: int, chunk: int, size': int, chunk': int)
    requires Increasing(list) && Elements(list) == saved
    ensures Loaded(Some(StateFile(version, size, chunk, list)), size', chunk') ==
              if version == 1 && size == size' && chunk == chunk' then Some(saved) else None
    ensures Loaded(None, size', chunk') == None
  {
  }

  /** A run: load, add some offsets with saves succeeding, die, load again. Fewer than `batch` additions are lost. */
  method AddThenReload(disk: StateDisk, size: int, chunk: int, batch: int, offsets: seq<int>)
      returns (lost: set<int>)
    requires Loaded(disk.file, size, chunk).Some? && batch >= 1
    modifies disk
    ensures Loaded(disk.file, size, chunk).Some?
    ensures Loaded(old(disk.file), size, chunk).value <= Loaded(disk.file, size, chunk).value
    ensures Loaded(disk.file, size, chunk).value + lost == Loaded(old(disk.file), size, chunk).value + Elements(offsets)
    ensures |lost| < batch && (|offsets| >= batch ==> lost == {})
  {
    ghost var start := Loaded(disk.file, size, chunk).value;
    var s := LoadResumeState(disk, size, chunk, batch);
    for i := 0 to |offsets|
      invariant fresh(s) && s.disk == disk && s.version == 1 && s.sourceSize == size && s.chunkSize == chunk
      invariant s.batch == batch && s.pending == offsets[..i]
      invariant s.completedSet == start + Elements(offsets[..i])
      invariant Loaded(disk.file, size, chunk) == Some(if i < batch then start else s.completedSet)
    {
      assert offsets[..i + 1] == offsets[..i] + [offsets[i]];
      assert Elements(offsets[..i + 1]) == Elements(offsets[..i]) + {offsets[i]};
      var _ := AddCompletedOffset(s, offsets[i], true, true);
    }
    assert offsets[..|offsets|] == offsets;
    var again := LoadResumeState(disk, size, chunk, batch);
    lost := s.completedSet - again.completedSet;
    ElementsBound(offsets);
    if |offsets| < batch {
      SubsetSize(lost, Elements(offsets));
    }
  }
}
