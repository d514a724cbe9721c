/**
 The server's cache of open file descriptors (fdCache in serve.go) over an operating system's descriptor table,
 and the file handlers that use it. Each handler is one atomic step.
 */
module FdCache {
  import opened Prelude
  import opened Files

  /** What the handlers do to the files, if every path were opened afresh: the reference. */
  type Contents = map<string, seq<byte>>

  /** What the system lets the server do: open files, and allocate buffers up to some size. */
  datatype Access = Access(readable: set<string>, writable: set<string>, largestBuffer: nat)

  /** os.OpenFile with O_RDONLY or O_RDWR succeeds. */
  predicate Openable(a: Access, fs: Contents, path: string, write: bool) {
    path in fs && path in a.readable && (write ==> path in a.writable)
  }

  /**
   How far making a new file gets. Blocked stands for what is looked at before it is known whether there is a file: the
   parent directories cannot be made, a directory is at the path, or Stat fails otherwise.
   */
  datatype Making = Blocked | Refused | NotSized | Made

  /** What may go wrong while an open file is hashed. */
  datatype HashFault = NoFault | SeekFails | CopyFails

  datatype Op =
    | Create(path: string, size: int, making: Making)
    | Write(path: string, off: int, data: seq<byte>, failsAfter: Option<nat>)
    | Read(path: string, off: int, count: int, statFails: bool)
    | Hash(path: string, fault: HashFault)
    | Sweep(now: int)

  /** A read whose buffer cannot be made, of negative size or too large, makes the handler panic; the server ends. */
  datatype Reply = Failed | Created | Wrote(n: nat) | Data(bytes: seq<byte>) | Digest(of: seq<byte>) | Silent | Crashed

  /** File.WriteAt: a negative offset is refused, a failure may leave a prefix behind. */
  function WrittenAt(old0: seq<byte>, off: int, data: seq<byte>, failsAfter: Option<nat>): (seq<byte>, bool) {
    if off < 0 then (old0, false) else (WriteAt(old0, off, Landed(data, failsAfter)), failsAfter.None?)
  }

  /** File.ReadAt: what it reads, and whether it reports an error. */
  function ReadFrom(bytes: seq<byte>, off: int, size: nat): (seq<byte>, bool) {
    if off < 0 then ([], true)
    else if off + size <= |bytes| then (bytes[off..off + size], false)
    else if off < |bytes| then (bytes[off..], true)
    else ([], size > 0)
  }

  /** One operation on files opened afresh; `served` is whether the system had a descriptor to give. */
  function Direct(a: Access, fs: Contents, op: Op, served: bool): (Reply, Contents) {
    match op
    case Create(path, size, making) =>
      if making.Blocked? then (Failed, fs)
      else if path in fs then (Created, fs)
      else if making.Refused? then (Failed, fs)
      else if size <= 0 then (Created, fs[path := []])
      else if making.NotSized? then (Failed, fs[path := []])
      else (Created, fs[path := Zeros(size)])
    case Write(path, off, data, failsAfter) =>
      if !served || !Openable(a, fs, path, true) then (Failed, fs)
      else
        var (bytes, ok) := WrittenAt(fs[path], off, data, failsAfter);
        (if ok then Wrote(|data|) else Failed, fs[path := bytes])
    case Read(path, off, count, statFails) =>
      if !served || !Openable(a, fs, path, false) || statFails then (Failed, fs)
      else if count < 0 || count > a.largestBuffer then (Crashed, fs)
      else
        var (bytes, err) := ReadFrom(fs[path], off, count);
        (if err && bytes == [] then Failed else Data(bytes), fs)
    case Hash(path, fault) =>
      (if served && Openable(a, fs, path, false) && fault.NoFault? then Digest(fs[path]) else Failed, fs)
    case Sweep(_) => (Silent, fs)
  }

  function DirectRun(a: Access, fs: Contents, ops: seq<Op>, served: seq<bool>): (seq<Reply>, Contents)
    requires |served| == |ops|
  {
    if ops == [] then ([], fs)
    else
      var n := |ops| - 1;
      var (replies, fs') := DirectRun(a, fs, ops[..n], served[..n]);
      var (reply, fs'') := Direct(a, fs', ops[n], served[n]);
      (replies + [reply], fs'')
  }

  lemma ReadBack(old0: seq<byte>, off: nat, data: seq<byte>)
    requires data != []
    ensures ReadFrom(WriteAt(old0, off, data), off, |data|) == (data, false)
  {
    var bytes := WriteAt(old0, off, data);
    assert off + |data| <= |bytes| && bytes[off..off + |data|] == data;
  }

  /** What was written can be read back, whoever asks, if there is memory for it. */
  lemma WriteThenRead(a: Access, fs: Contents, path: string, off: nat, data: seq<byte>)
    requires Openable(a, fs, path, true) && data != []
    ensures var (reply, fs') := Direct(a, fs, Write(path, off, data, None), true);
            && reply == Wrote(|data|)
            && Direct(a, fs', Read(path, off, |data|, false), true) ==
               (if |data| <= a.largestBuffer then Data(data) else Crashed, fs')
  {
    ReadBack(fs[path], off, data);
  }

  // ---- the operating system

  datatype Descriptor = Descriptor(path: string, write: bool, pos: nat)

  class FileSystem {
    const access: Access
    var contents: Contents
    var open: map<int, Descriptor>
    var nextFd: int
    var badCloses: nat             // descriptors closed that were not open

    constructor (access: Access, contents: Contents)
      ensures this.access == access && this.contents == contents
      ensures open == map[] && badCloses == 0
    {
      this.access, this.contents := access, contents;
      open, nextFd, badCloses := map[], 0, 0;
    }

    ghost predicate Numbered()
      reads `open, `nextFd
    {
      forall fd | fd in open :: fd < nextFd
    }

    /** os.OpenFile without O_CREATE; it may also fail for want of resources. */
    method OpenFile(path: string, write: bool, exhausted: bool) returns (fd: Option<int>)
      requires Numbered()
      modifies `open, `nextFd
      ensures Numbered()
      ensures fd.Some? <==> Openable(access, contents, path, write) && !exhausted
      ensures fd.Some? ==> fd.value !in old(open) && open == old(open)[fd.value := Descriptor(path, write, 0)]
      ensures fd.None? ==> open == old(open)
    {
      if exhausted || !Openable(access, contents, path, write) {
        return None;
      }
      fd := Some(nextFd);
      open := open[nextFd := Descriptor(path, write, 0)];
      nextFd := nextFd + 1;
    }

    method Close(fd: int)
      modifies `open, `badCloses
      ensures open == old(open) - {fd}
      ensures badCloses == old(badCloses) + if fd in old(open) then 0 else 1
    {
      if fd !in open {
        badCloses := badCloses + 1;
      }
      open := open - {fd};
    }
  }

  // ---- the cache

  datatype Entry = Entry(fd: int, writable: bool, lastAccess: int)

  class Cache {
    const os: FileSystem
    const idleTimeout: int
    var files: map<string, Entry>

    constructor (os: FileSystem, idleTimeout: int)
      requires os.open == map[] && os.badCloses == 0
      ensures this.os == os && this.idleTimeout == idleTimeout && files == map[]
      ensures Valid()
    {
      this.os, this.idleTimeout := os, idleTimeout;
      files := map[];
    }

    /** Every entry's descriptor is open, on its path and in its mode. */
    ghost predicate EntriesOpen()
      reads `files, os`open
    {
      forall p | p in files ::
        files[p].fd in os.open && os.open[files[p].fd].path == p && os.open[files[p].fd].write == files[p].writable
    }

    /** Nothing else is open: every descriptor belongs to the entry of its path, and to no other. */
    ghost predicate NothingElseOpen()
      reads `files, os`open
    {
      forall fd | fd in os.open :: os.open[fd].path in files && files[os.open[fd].path].fd == fd
    }

    /** What is cached could be opened again. */
    ghost predicate EntriesOpenable()
      reads `files, os`contents
    {
      forall p | p in files :: Openable(os.access, os.contents, p, files[p].writable)
    }

    ghost predicate Valid()
      reads this, os
    {
      EntriesOpen() && NothingElseOpen() && EntriesOpenable() && os.Numbered() && os.badCloses == 0
    }

    /** The entry's descriptor is closed and the entry deleted. */
    method CloseEntry(path: string)
      requires Valid() && path in files
      modifies `files, os`open, os`badCloses
      ensures Valid() && files == old(files) - {path}
    {
      os.Close(files[path].fd);
      files := files - {path};
    }

    /**
     get: the descriptor is open on that path, and writable if asked for. It is had exactly when the path can be
     opened, unless descriptors have run out. A read-only entry that cannot be upgraded is lost.
     */
    method Get(path: string, writable: bool, now: int, exhausted: bool) returns (fd: Option<int>)
      requires Valid()
      modifies `files, os`open, os`nextFd, os`badCloses
      ensures Valid()
      ensures fd.Some? ==>
                && Openable(os.access, os.contents, path, writable)
                && fd.value in os.open && os.open[fd.value].path == path && (writable ==> os.open[fd.value].write)
                && path in files && files[path].fd == fd.value && files[path].lastAccess == now
      ensures !exhausted && Openable(os.access, os.contents, path, writable) ==> fd.Some?
      ensures path in old(files) && (writable ==> old(files)[path].writable) ==>
                fd == Some(old(files)[path].fd) && os.open == old(os.open)
      ensures fd.None? ==> files == old(files) - {path}
      ensures forall p | p != path :: (p in files <==> p in old(files)) && (p in files ==> files[p] == old(files[p]))
    {
      if path in files {
        var e := files[path];
        if writable && !e.writable {
          os.Close(e.fd);
          var f := os.OpenFile(path, true, exhausted);
          if f.None? {
            files := files - {path};
            return None;
          }
          e := e.(fd := f.value, writable := true);
        }
        files := files[path := e.(lastAccess := now)];
        return Some(e.fd);
      }
      var f := os.OpenFile(path, writable, exhausted);
      if f.None? {
        return None;
      }
      files := files[path := Entry(f.value, writable, now)];
      return f;
    }

    method Evict(path: string)
      requires Valid()
      modifies `files, os`open, os`badCloses
      ensures Valid() && files == old(files) - {path}
    {
      if path in files {
        CloseEntry(path);
      }
    }

    predicate Idle(e: Entry, now: int) {
      now - e.lastAccess > idleTimeout
    }

    /** One tick of sweepLoop: exactly the idle entries go. */
    method SweepIdle(now: int)
      requires Valid()
      modifies `files, os`open, os`badCloses
      ensures Valid()
      ensures forall p :: p in files <==> p in old(files) && now - old(files)[p].lastAccess <= idleTimeout
      ensures forall p | p in files :: files[p] == old(files)[p]
    {
      var paths := CollectKeys(files.Keys);
      var i := 0;
      while i < |paths|
        invariant 0 <= i <= |paths| && Valid()
        invariant forall p :: p in files <==> p in old(files) && (p in paths[..i] ==> !Idle(old(files)[p], now))
        invariant forall p | p in files :: files[p] == old(files)[p]
      {
        var path := paths[i];
        assert paths[..i + 1] == paths[..i] + [path];
        if path in files {
          if Idle(files[path], now) {
            CloseEntry(path);
          }
        }
        i := i + 1;
      }
      assert paths[..i] == paths;
      assert forall p | p in old(files) :: p in paths[..i];
    }

    /** close: every descriptor is closed, once. */
    method CloseAll()
      requires Valid()
      modifies `files, os`open, os`badCloses
      ensures Valid() && files == map[] && os.open == map[]
    {
      var paths := CollectKeys(files.Keys);
      var i := 0;
      while i < |paths|
        invariant 0 <= i <= |paths| && Valid()
        invariant forall p :: p in files <==> p in old(files) && p !in paths[..i]
      {
        assert paths[..i + 1] == paths[..i] + [paths[i]];
        if paths[i] in files {
          CloseEntry(paths[i]);
        }
        i := i + 1;
      }
      assert paths[..i] == paths;
      assert forall p | p in old(files) :: p in paths[..i];
      assert forall p :: p !in files;
      assert files.Keys == {} && files == map[];
      OpenAreCached();
      assert os.open.Keys == {};
    }

    ghost function Cached(): set<int>
      reads `files
    {
      set p | p in files :: files[p].fd
    }

    /** The open descriptors are exactly the cached ones. */
    lemma OpenAreCached()
      requires EntriesOpen() && NothingElseOpen()
      ensures os.open.Keys == Cached()
    {
      forall fd | fd in os.open ensures fd in Cached() {
        assert files[os.open[fd].path].fd == fd;
      }
    }
  }

  // ---- the handlers

  /** The handlers' state: the files as they are, and the cache as it should be. */
  class Server {
    const os: FileSystem
    const cache: Cache

    constructor (access: Access, contents: Contents, idleTimeout: int)
      ensures fresh(os) && fresh(cache) && Ready()
      ensures os.access == access && os.contents == contents
    {
      var system := new FileSystem(access, contents);
      os := system;
      cache := new Cache(system, idleTimeout);
    }

    ghost predicate Ready()
      reads this, os, cache
    {
      cache.os == os && cache.Valid()
    }

    /** What is cached for other paths is as before. */
    ghost predicate OthersCached(before: map<string, Entry>, path: string)
      reads cache
    {
      forall p | p != path :: (p in cache.files <==> p in before) && (p in before ==> cache.files[p] == before[p])
    }

    /** The new file is empty until it is given its size. */
    method HandleCreate(path: string, size: int, making: Making) returns (r: Reply)
      requires Ready()
      modifies os`contents
      ensures Ready() && (r, os.contents) == Direct(os.access, old(os.contents), Create(path, size, making), true)
    {
      if making.Blocked? {
        return Failed;
      }
      if path !in os.contents {
        if making.Refused? {
          return Failed;
        }
        os.contents := os.contents[path := []];
        if size > 0 {
          if making.NotSized? {
            return Failed;
          }
          os.contents := os.contents[path := Zeros(size)];
          assert os.contents == old(os.contents)[path := Zeros(size)];
        }
      }
      return Created;
    }

    /** File.WriteAt through the descriptor. */
    method WriteThrough(fd: int, off: int, data: seq<byte>, failsAfter: Option<nat>) returns (ok: bool)
      requires Ready() && fd in os.open && os.open[fd].path in os.contents && os.open[fd].write
      modifies os`contents
      ensures Ready()
      ensures var path := os.open[fd].path;
              var (bytes, done) := WrittenAt(old(os.contents)[path], off, data, failsAfter);
              ok == done && os.contents == old(os.contents)[path := bytes]
    {
      var path := os.open[fd].path;
      var (bytes, done) := WrittenAt(os.contents[path], off, data, failsAfter);
      os.contents := os.contents[path := bytes];
      ok := done;
    }

    method HandleWrite(path: string, off: int, data: seq<byte>, failsAfter: Option<nat>, now: int, exhausted: bool)
      returns (r: Reply, ghost served: bool)
      requires Ready()
      modifies os, cache
      ensures Ready() && (!exhausted ==> served)
      ensures (r, os.contents) == Direct(os.access, old(os.contents), Write(path, off, data, failsAfter), served)
      ensures path in cache.files <==> r.Wrote?
      ensures OthersCached(old(cache.files), path)
    {
      var fd := cache.Get(path, true, now, exhausted);
      served := fd.Some? || !exhausted;
      if fd.None? {
        return Failed, served;
      }
      var ok := WriteThrough(fd.value, off, data, failsAfter);
      if !ok {
        cache.Evict(path);
        return Failed, served;
      }
      return Wrote(|data|), served;
    }

    method HandleRead(path: string, off: int, size: int, statFails: bool, now: int, exhausted: bool)
      returns (r: Reply, ghost served: bool)
      requires Ready()
      modifies os, cache
      ensures Ready() && (!exhausted ==> served)
      ensures (r, os.contents) == Direct(os.access, old(os.contents), Read(path, off, size, statFails), served)
      ensures r.Data? ==> path in cache.files
      ensures OthersCached(old(cache.files), path)
    {
      var fd := cache.Get(path, false, now, exhausted);
      served := fd.Some? || !exhausted;
      if fd.None? || statFails {
        return Failed, served;
      }
      if size < 0 || size > os.access.largestBuffer {
        return Crashed, served;
      }
      var (bytes, err) := ReadFrom(os.contents[os.open[fd.value].path], off, size);
      if err && |bytes| == 0 {
        return Failed, served;
      }
      return Data(bytes), served;
    }

    /** Seek to the start, then read to the end; the shared position moves with it. */
    method Slurp(fd: int) returns (bytes: seq<byte>)
      requires Ready() && fd in os.open && os.open[fd].path in os.contents
      modifies os`open
      ensures Ready() && bytes == os.contents[os.open[fd].path]
    {
      var d := os.open[fd].(pos := 0);
      var all := os.contents[d.path];
      bytes := if d.pos <= |all| then all[d.pos..] else [];
      os.open := os.open[fd := d.(pos := |all|)];
    }

    method HandleHash(path: string, fault: HashFault, now: int, exhausted: bool) returns (r: Reply, ghost served: bool)
      requires Ready()
      modifies os, cache
      ensures Ready() && (!exhausted ==> served)
      ensures (r, os.contents) == Direct(os.access, old(os.contents), Hash(path, fault), served)
      ensures path !in cache.files && OthersCached(old(cache.files), path)
    {
      var fd := cache.Get(path, false, now, exhausted);
      served := fd.Some? || !exhausted;
      if fd.None? || fault.SeekFails? {
        cache.Evict(path);
        return Failed, served;
      }
      var bytes := Slurp(fd.value);
      cache.Evict(path);
      return if fault.CopyFails? then Failed else Digest(bytes), served;
    }

    method Handle(q: Request) returns (r: Reply, ghost served: bool)
      requires Ready()
      modifies os, cache
      ensures Ready() && (!q.exhausted ==> served)
      ensures (r, os.contents) == Direct(os.access, old(os.contents), q.op, served)
    {
      served := true;
      match q.op
      case Create(path, size, making) => r := HandleCreate(path, size, making);
      case Write(path, off, data, failsAfter) =>
        r, served := HandleWrite(path, off, data, failsAfter, q.now, q.exhausted);
      case Read(path, off, size, statFails) => r, served := HandleRead(path, off, size, statFails, q.now, q.exhausted);
      case Hash(path, fault) => r, served := HandleHash(path, fault, q.now, q.exhausted);
      case Sweep(tick) =>
        cache.SweepIdle(tick);
        r := Silent;
    }

    /**
     Refinement over every run: whatever the requests, their times and the sweeps between them, the replies and
     the files are those of opening the path afresh each time, where only a request that finds the system out of
     descriptors may go unserved. The run ends early only by a crash; otherwise closing the cache leaves no
     descriptor open, and none was ever closed twice.
     */
    method Run(requests: seq<Request>) returns (replies: seq<Reply>, ghost served: seq<bool>)
      requires Ready()
      modifies os, cache
      ensures |served| == |replies| <= |requests|
      ensures (replies, os.contents) == DirectRun(os.access, old(os.contents), Ops(requests[..|replies|]), served)
      ensures forall i | 0 <= i < |replies| && !requests[i].exhausted :: served[i]
      ensures forall i | 0 <= i < |replies| - 1 :: !replies[i].Crashed?
      ensures |replies| < |requests| ==> replies != [] && replies[|replies| - 1].Crashed?
      ensures os.badCloses == 0 && (os.open == map[] || (replies != [] && replies[|replies| - 1].Crashed?))
    {
      replies, served := [], [];
      while |replies| < |requests|
        invariant |served| == |replies| <= |requests| && Ready()
        invariant (replies, os.contents) == DirectRun(os.access, old(os.contents), Ops(requests[..|replies|]), served)
        invariant forall i | 0 <= i < |replies| && !requests[i].exhausted :: served[i]
        invariant forall i | 0 <= i < |replies| :: !replies[i].Crashed?
      {
        var n := |replies|;
        var r;
        ghost var had;
        r, had := Handle(requests[n]);
        OneMoreOp(os.access, old(os.contents), requests, n, served, had);
        served := served + [had];
        replies := replies + [r];
        if r.Crashed? {
          return;
        }
      }
      cache.CloseAll();
    }
  }

  /** A request, when it comes, and whether the system is out of descriptors then. */
  datatype Request = Request(op: Op, now: int, exhausted: bool)

  function Ops(requests: seq<Request>): (ops: seq<Op>)
    ensures |ops| == |requests|
  {
    seq(|requests|, i requires 0 <= i < |requests| => requests[i].op)
  }

  lemma OneMoreOp(a: Access, fs: Contents, requests: seq<Request>, n: nat, served: seq<bool>, had: bool)
    requires |served| == n < |requests|
    ensures var (replies, fs') := DirectRun(a, fs, Ops(requests[..n]), served);
            var (reply, fs'') := Direct(a, fs', requests[n].op, had);
            DirectRun(a, fs, Ops(requests[..n + 1]), served + [had]) == (replies + [reply], fs'')
  {
    assert Ops(requests[..n + 1])[..n] == Ops(requests[..n]);
    assert (served + [had])[..n] == served;
  }
}
