/**
 What one chunk's goroutine does while it holds its slot: uploadFileChunk (cp_to_host.go) with the server's
 write handler at the other end, and the callback of downloadFile (cp_from_host.go) with the read handler.
 The two methods are the code behind the attempts of the Transfer module's goroutines, as CallbackRuns says.
 */
module Callbacks {
  import opened Prelude
  import opened Files
  import opened Pipeline

  datatype Error = ContextDone | NoResponse | Refused | ChecksumMismatch | Undecodable | FileError

  /** How chunks are packed, and the keys of the client and of its server. */
  datatype Link = Link(lib: Library, algo: byte, encrypt: bool, key: Key, peer: Key, useChecksum: bool)

  ghost predicate LinkValid(l: Link) {
    Lawful(l.lib) && Authentic(l.lib, l.key, l.peer) && Authentic(l.lib, l.peer, l.key)
  }

  /** There are links, between any two keys. */
  lemma SomeLink(key: Key, peer: Key, algo: byte, encrypt: bool, useChecksum: bool) returns (l: Link)
    ensures LinkValid(l) && l.key == key && l.peer == peer
    ensures l.algo == algo && l.encrypt == encrypt && l.useChecksum == useChecksum
  {
    var lib := LawsCanBeMet(key, peer);
    l := Link(lib, algo, encrypt, key, peer, useChecksum);
  }

  predicate Agree(l: Link, data: seq<byte>) {
    KeysSuffice(l.encrypt, data, l.key, l.peer)
  }

  /** A file and the one thing done to it, a positional write of which a failure may leave a part behind. */
  class TargetFile {
    var bytes: seq<byte>

    constructor (bytes: seq<byte>)
      ensures this.bytes == bytes
    {
      this.bytes := bytes;
    }

    method Write(off: nat, data: seq<byte>, failsAfter: Option<nat>) returns (ok: bool)
      modifies this
      ensures ok == failsAfter.None?
      ensures bytes == WriteAt(old(bytes), off, Landed(data, failsAfter))
    {
      bytes := WriteAt(bytes, off, Landed(data, failsAfter));
      ok := failsAfter.None?;
    }
  }

  /** Only bytes of the source were written, each to its own place between `from` and `to`. */
  ghost predicate OnlySource(source: seq<byte>, before: seq<byte>, after: seq<byte>, from: nat, to: nat) {
    && (forall p | 0 <= p < |after| && !(from <= p < to) ::
          after[p] == if p < |before| then before[p] else 0)
    && (forall p | from <= p < to && p < |after| ::
          after[p] == (if p < |before| then before[p] else 0) || (p < |source| && after[p] == source[p]))
    && |before| <= |after| && (|after| == |before| || |after| <= to)
  }

  lemma LandIsOnlySource(source: seq<byte>, start: seq<byte>, before: seq<byte>, from: nat, to: nat, n: nat)
    requires OnlySource(source, start, before, from, to) && from + n <= to <= |source|
    ensures OnlySource(source, start, WriteAt(before, from, source[from..from + n]), from, to)
  {
  }

  /** What held of the source's bytes anywhere in the file still holds. */
  lemma OnlySourceKeepsRight(source: seq<byte>, before: seq<byte>, after: seq<byte>, from: nat, to: nat, a: nat, b: nat)
    requires OnlySource(source, before, after, from, to) && Right(source, before, a, b)
    ensures Right(source, after, a, b)
  {
    if a < b {
      forall p | a <= p < b ensures p < |after| && after[p] == source[p] {
        RightAt(source, before, a, b, p);
      }
      RightEverywhere(source, after, a, b);
    }
  }

  // ---- upload

  /** What happens to one attempt; the two flags are the context at the two places where it is looked at. */
  datatype WriteFate =
    | Unanswered(arrives: bool, failsAfter: Option<nat>)  // cc.Write returns an error; the request may still arrive
    | Answered(failsAfter: Option<nat>)                   // the server's reply, after its WriteAt

  datatype WriteWorld = WriteWorld(
    doneBefore: nat -> bool, fate: nat -> WriteFate, doneInBackoff: nat -> bool, nonce: nat -> seq<byte>)

  ghost predicate WriteWorldValid(w: WriteWorld) {
    forall i :: |w.nonce(i)| == NONCE_SIZE
  }

  /** The write handler of the server. */
  method HandleWrite(l: Link, file: TargetFile, p: Packed, off: nat, failsAfter: Option<nat>) returns (ok: bool)
    modifies file
    ensures var data := ServerWrite(l.lib, p, Some(l.peer));
            && ok == (data.Some? && failsAfter.None?)
            && file.bytes == if data.Some? then WriteAt(old(file.bytes), off, Landed(data.value, failsAfter))
                             else old(file.bytes)
  {
    var data := ServerWrite(l.lib, p, Some(l.peer));
    if data.None? {
      return false;
    }
    ok := file.Write(off, data.value, failsAfter);
  }

  /** What an attempt leaves in the file, and what it returns. */
  function AttemptBytes(l: Link, buf: seq<byte>, before: seq<byte>, off: nat, fate: WriteFate): seq<byte> {
    if Agree(l, buf) && !(fate.Unanswered? && !fate.arrives) then WriteAt(before, off, Landed(buf, fate.failsAfter))
    else before
  }

  function AttemptError(l: Link, buf: seq<byte>, fate: WriteFate): Option<Error> {
    if fate == Answered(None) && Agree(l, buf) then None
    else Some(if fate.Unanswered? then NoResponse else Refused)
  }

  /** The retry loop from attempt k on: its result, the file, and the number of attempts. */
  function UploadFrom(l: Link, buf: seq<byte>, before: seq<byte>, off: nat, k: nat, maxRetries: nat, w: WriteWorld)
    : (Option<Error>, seq<byte>, nat)
    requires k <= maxRetries
    decreases maxRetries - k
  {
    var after, err := AttemptBytes(l, buf, before, off, w.fate(k)), AttemptError(l, buf, w.fate(k));
    if w.doneBefore(k) then (Some(ContextDone), before, k)
    else if err.None? || k == maxRetries then (err, after, k + 1)
    else if w.doneInBackoff(k) then (Some(ContextDone), after, k + 1)
    else UploadFrom(l, buf, after, off, k + 1, maxRetries, w)
  }

  /** copierClient.Write, and whatever the server does about it. */
  method Attempt(l: Link, file: TargetFile, buf: seq<byte>, off: nat, fate: WriteFate, nonce: seq<byte>)
    returns (err: Option<Error>)
    requires LinkValid(l) && |nonce| == NONCE_SIZE
    modifies file
    ensures err == AttemptError(l, buf, fate)
    ensures file.bytes == AttemptBytes(l, buf, old(file.bytes), off, fate)
  {
    var p := ClientWrite(l.lib, buf, l.algo, l.encrypt, Some(l.key), nonce, l.useChecksum);
    KeysMustAgree(l.lib, buf, l.algo, l.encrypt, l.key, l.peer, nonce, l.useChecksum);
    match fate
    case Unanswered(arrives, failsAfter) =>
      if arrives {
        var _ := HandleWrite(l, file, p, off, failsAfter);
      }
      err := Some(NoResponse);
    case Answered(failsAfter) =>
      var ok := HandleWrite(l, file, p, off, failsAfter);
      err := if ok then None else Some(Refused);
  }

  /** An attempt writes only bytes of its chunk, and all of them if it succeeds. */
  lemma AttemptOfSource(l: Link, source: seq<byte>, start: seq<byte>, before: seq<byte>, off: nat, size: nat,
                        fate: WriteFate)
    requires off + size <= |source| && OnlySource(source, start, before, off, off + size)
    ensures var buf := source[off..off + size];
            var after := AttemptBytes(l, buf, before, off, fate);
            && OnlySource(source, start, after, off, off + size)
            && (AttemptError(l, buf, fate).None? ==> Right(source, after, off, off + size))
  {
    LandedOfSource(source, start, before, off, size, fate.failsAfter);
    if AttemptError(l, source[off..off + size], fate).None? {
      WriteExtendsRight(source, before, off, off, off + size);
    }
  }

  /** So does the loop. */
  lemma {:induction false} UploadOfSource(l: Link, source: seq<byte>, start: seq<byte>, before: seq<byte>, off: nat,
                                          size: nat, k: nat, maxRetries: nat, w: WriteWorld)
    requires off + size <= |source| && k <= maxRetries && OnlySource(source, start, before, off, off + size)
    ensures var (err, after, tries) := UploadFrom(l, source[off..off + size], before, off, k, maxRetries, w);
            && OnlySource(source, start, after, off, off + size)
            && (err.None? ==> Right(source, after, off, off + size))
            && tries <= maxRetries + 1
            && (err.Some? && err != Some(ContextDone) ==> tries == maxRetries + 1)
    decreases maxRetries - k
  {
    var buf := source[off..off + size];
    AttemptOfSource(l, source, start, before, off, size, w.fate(k));
    var after := AttemptBytes(l, buf, before, off, w.fate(k));
    if !w.doneBefore(k) && AttemptError(l, buf, w.fate(k)).Some? && k < maxRetries && !w.doneInBackoff(k) {
      UploadOfSource(l, source, start, after, off, size, k + 1, maxRetries, w);
    }
  }

  /** Attempt i is reached, under a live context, and every one before it failed. */
  ghost predicate Reaches(w: WriteWorld, i: nat) {
    && (forall j | 0 <= j < i :: w.fate(j) != Answered(None) && !w.doneInBackoff(j))
    && (forall j | 0 <= j <= i :: !w.doneBefore(j))
  }

  /** Some attempt is reached and accepted by the server. */
  ghost predicate GetsAccepted(w: WriteWorld, maxRetries: nat) {
    exists i | 0 <= i <= maxRetries :: Reaches(w, i) && w.fate(i) == Answered(None)
  }

  /** When the loop succeeds, given how the attempts before the k-th went. */
  lemma {:induction false} UploadSucceeds(l: Link, buf: seq<byte>, before: seq<byte>, off: nat, k: nat, maxRetries: nat,
                                          w: WriteWorld)
    requires k <= maxRetries
    requires forall j | 0 <= j < k :: !w.doneBefore(j) && !w.doneInBackoff(j)
    requires Agree(l, buf) ==> forall j | 0 <= j < k :: w.fate(j) != Answered(None)
    ensures UploadFrom(l, buf, before, off, k, maxRetries, w).0.None? <==> Agree(l, buf) && GetsAccepted(w, maxRetries)
    decreases maxRetries - k
  {
    var after, err := AttemptBytes(l, buf, before, off, w.fate(k)), AttemptError(l, buf, w.fate(k));
    if !w.doneBefore(k) {
      if err.None? {
        assert Reaches(w, k);
      } else if k < maxRetries && !w.doneInBackoff(k) {
        UploadSucceeds(l, buf, after, off, k + 1, maxRetries, w);
      }
    }
  }

  /**
   Whatever happens to the attempts, only bytes of this chunk are ever written; nil means the chunk is in the
   file, and comes exactly when the keys suffice and some attempt is reached and accepted.
   */
  method UploadFileChunk(l: Link, source: seq<byte>, file: TargetFile, off: nat, size: nat, maxRetries: nat,
                        w: WriteWorld)
    returns (err: Option<Error>, tries: nat)
    requires LinkValid(l) && WriteWorldValid(w)
    modifies file
    ensures OnlySource(source, old(file.bytes), file.bytes, off, off + size)
    ensures off + size > |source| ==> err == Some(FileError) && file.bytes == old(file.bytes)
    ensures err.None? ==> Right(source, file.bytes, off, off + size)
    ensures off + size <= |source| ==> (err.None? <==> Agree(l, source[off..off + size]) && GetsAccepted(w, maxRetries))
    ensures tries <= maxRetries + 1
    ensures err.Some? && err != Some(ContextDone) && off + size <= |source| ==> tries == maxRetries + 1
    ensures off + size <= |source| ==>
              (err, file.bytes, tries) ==
              UploadFrom(l, source[off..off + size], old(file.bytes), off, 0, maxRetries, w)
  {
    if off + size > |source| {
      return Some(FileError), 0;
    }
    var buf := source[off..off + size];
    UploadOfSource(l, source, file.bytes, file.bytes, off, size, 0, maxRetries, w);
    UploadSucceeds(l, buf, file.bytes, off, 0, maxRetries, w);
    err, tries := WriteWithRetries(l, buf, file, off, maxRetries, w);
  }

  /** The retry loop around copierClient.Write. */
  method WriteWithRetries(l: Link, buf: seq<byte>, file: TargetFile, off: nat, maxRetries: nat, w: WriteWorld)
    returns (err: Option<Error>, tries: nat)
    requires LinkValid(l) && WriteWorldValid(w)
    modifies file
    ensures (err, file.bytes, tries) == UploadFrom(l, buf, old(file.bytes), off, 0, maxRetries, w)
  {
    tries := 0;
    err := None;
    while tries <= maxRetries
      invariant 0 <= tries <= maxRetries + 1
      invariant UploadFrom(l, buf, old(file.bytes), off, 0, maxRetries, w) ==
                if tries <= maxRetries then UploadFrom(l, buf, file.bytes, off, tries, maxRetries, w)
                else (err, file.bytes, tries)
    {
      if w.doneBefore(tries) {
        return Some(ContextDone), tries;
      }
      err := Attempt(l, file, buf, off, w.fate(tries), w.nonce(tries));
      if err.None? {
        return None, tries + 1;
      }
      if tries < maxRetries {
        if w.doneInBackoff(tries) {
          return Some(ContextDone), tries + 1;
        }
      }
      tries := tries + 1;
    }
  }

  lemma LandedOfSource(source: seq<byte>, start: seq<byte>, before: seq<byte>, off: nat, size: nat,
                       failsAfter: Option<nat>)
    requires off + size <= |source| && OnlySource(source, start, before, off, off + size)
    ensures var landed := Landed(source[off..off + size], failsAfter);
            OnlySource(source, start, WriteAt(before, off, landed), off, off + size)
  {
    var n := |Landed(source[off..off + size], failsAfter)|;
    assert Landed(source[off..off + size], failsAfter) == source[off..off + n];
    LandIsOnlySource(source, start, before, off, off + size, n);
  }

  // ---- download

  datatype ReadFate =
    | NoReply
    | ReadFailed
    | Data(packed: Packed)

  datatype ReadWorld = ReadWorld(
    doneBefore: nat -> bool, fate: nat -> ReadFate, doneInBackoff: nat -> bool, failsAfter: Option<nat>)

  /** The response is what the read handler sends for these bytes. */
  ghost predicate Honest(l: Link, data: seq<byte>, p: Packed) {
    exists nonce | |nonce| == NONCE_SIZE ::
      p == ServerRead(l.lib, data, l.algo, if l.encrypt then ENCRYPTION_SECRET_BOX else ENCRYPTION_NONE, Some(l.peer),
                      nonce)
  }

  predicate Caught(l: Link, p: Packed) {
    l.useChecksum && p.checksum != 0 && l.lib.crc(p.payload) != p.checksum
  }

  /** Responses that were altered on the way are caught by their checksum. */
  ghost predicate ReadWorldValid(l: Link, data: seq<byte>, w: ReadWorld) {
    forall i :: w.fate(i).Data? ==> Honest(l, data, w.fate(i).packed) || Caught(l, w.fate(i).packed)
  }

  predicate Usable(l: Link, f: ReadFate) {
    f.Data? && !Caught(l, f.packed)
  }

  ghost predicate ReadReaches(l: Link, w: ReadWorld, i: nat) {
    && (forall j | 0 <= j < i :: !Usable(l, w.fate(j)) && !w.doneInBackoff(j))
    && (forall j | 0 <= j <= i :: !w.doneBefore(j))
  }

  /** Some attempt is reached and answered usably. */
  ghost predicate GetsUsable(l: Link, w: ReadWorld, maxRetries: nat) {
    exists i | 0 <= i <= maxRetries :: ReadReaches(l, w, i) && Usable(l, w.fate(i))
  }

  lemma HonestDecodes(l: Link, data: seq<byte>, p: Packed)
    requires LinkValid(l) && Honest(l, data, p)
    ensures Unpack(l.lib, p, Some(l.key)) == if Agree(l, data) then Some(data) else None
  {
    var encryption := if l.encrypt then ENCRYPTION_SECRET_BOX else ENCRYPTION_NONE;
    var nonce :| |nonce| == NONCE_SIZE && p == ServerRead(l.lib, data, l.algo, encryption, Some(l.peer), nonce);
    UnpackUnderKey(l.lib, data, l.algo, l.encrypt, l.peer, l.key, nonce);
    var q := Pack(l.lib, data, l.algo, l.encrypt, Some(l.peer), nonce);
    assert p == q.(checksum := p.checksum);
    assert Unpack(l.lib, p, Some(l.key)) == Unpack(l.lib, q, Some(l.key));
  }

  function ReadError(f: ReadFate): Error {
    match f
    case NoReply => NoResponse
    case ReadFailed => Refused
    case Data(_) => ChecksumMismatch
  }

  /** The retry loop from attempt k on: its result and the number of attempts. */
  function ReadFrom(l: Link, k: nat, maxRetries: nat, w: ReadWorld): (Result<Packed, Error>, nat)
    requires k <= maxRetries
    decreases maxRetries - k
  {
    if w.doneBefore(k) then (Err(ContextDone), k)
    else if Usable(l, w.fate(k)) then (Ok(w.fate(k).packed), k + 1)
    else if k == maxRetries then (Err(ReadError(w.fate(k))), k + 1)
    else if w.doneInBackoff(k) then (Err(ContextDone), k + 1)
    else ReadFrom(l, k + 1, maxRetries, w)
  }

  /** What the download callback returns and leaves in the file. */
  function DownloadOf(l: Link, data: seq<byte>, before: seq<byte>, off: nat, r: Result<Packed, Error>, w: ReadWorld)
    : (Option<Error>, seq<byte>)
  {
    if r.Err? then (Some(r.error), before)
    else if !Agree(l, data) then (Some(Undecodable), before)
    else (if w.failsAfter.None? then None else Some(FileError), WriteAt(before, off, Landed(data, w.failsAfter)))
  }

  /** The retry loop around copierClient.Read: reads only, so it leaves the file alone. */
  method ReadWithRetries(l: Link, ghost data: seq<byte>, maxRetries: nat, w: ReadWorld)
    returns (r: Result<Packed, Error>, tries: nat)
    requires LinkValid(l) && ReadWorldValid(l, data, w)
    ensures r.Ok? ==> tries > 0 && w.fate(tries - 1) == Data(r.value) && Usable(l, w.fate(tries - 1))
    ensures r.Ok? ==> Honest(l, data, r.value)
    ensures r.Ok? <==> GetsUsable(l, w, maxRetries)
    ensures r.Err? ==> r.error != FileError && (r.error != ContextDone ==> tries == maxRetries + 1)
    ensures tries <= maxRetries + 1
    ensures (r, tries) == ReadFrom(l, 0, maxRetries, w)
  {
    tries := 0;
    var err := NoResponse;
    while tries <= maxRetries
      invariant 0 <= tries <= maxRetries + 1
      invariant forall j | 0 <= j < tries :: !Usable(l, w.fate(j)) && !w.doneBefore(j)
      invariant forall j | 0 <= j < tries && j < maxRetries :: !w.doneInBackoff(j)
      invariant err != ContextDone && err != FileError
      invariant ReadFrom(l, 0, maxRetries, w) ==
                if tries <= maxRetries then ReadFrom(l, tries, maxRetries, w) else (Err(err), tries)
    {
      if w.doneBefore(tries) {
        return Err(ContextDone), tries;
      }
      match w.fate(tries) {
        case NoReply => err := NoResponse;
        case ReadFailed => err := Refused;
        case Data(p) =>
          if Caught(l, p) {
            err := ChecksumMismatch;
          } else {
            assert ReadReaches(l, w, tries);
            return Ok(p), tries + 1;
          }
      }
      if tries < maxRetries {
        if w.doneInBackoff(tries) {
          return Err(ContextDone), tries + 1;
        }
      }
      tries := tries + 1;
    }
    r := Err(err);
  }

  /** Decryption and decompression of a usable response. */
  method Decode(l: Link, ghost data: seq<byte>, p: Packed) returns (r: Option<seq<byte>>)
    requires LinkValid(l) && Honest(l, data, p)
    ensures r == if Agree(l, data) then Some(data) else None
  {
    HonestDecodes(l, data, p);
    var chunk := Some(p.payload);
    if p.encryption == ENCRYPTION_SECRET_BOX {
      chunk := DecryptChunk(l.lib, p.payload, Some(l.key));
      if chunk.None? {
        return None;
      }
    }
    r := DecompressChunk(l.lib, chunk.value, p.compression);
  }

  /** The callback writes only bytes of its chunk, and all of them if it succeeds. */
  lemma DownloadOfSource(l: Link, source: seq<byte>, before: seq<byte>, off: nat, size: nat,
                         r: Result<Packed, Error>, w: ReadWorld)
    requires off + size <= |source|
    ensures var (err, after) := DownloadOf(l, source[off..off + size], before, off, r, w);
            && OnlySource(source, before, after, off, off + size)
            && (err.None? ==> Right(source, after, off, off + size))
  {
    LandedOfSource(source, before, before, off, size, w.failsAfter);
    if w.failsAfter.None? {
      WriteExtendsRight(source, before, off, off, off + size);
    }
  }

  /**
   The download callback up to its report: nil means the chunk is in the file and its length was reported, and
   comes exactly when the keys suffice, a usable response is reached and the local write succeeds. Decoding is
   not retried.
   */
  method DownloadChunk(l: Link, ghost source: seq<byte>, file: TargetFile, off: nat, ghost size: nat,
                       maxRetries: nat, w: ReadWorld)
    returns (err: Option<Error>, reported: nat)
    requires LinkValid(l) && off + size <= |source| && ReadWorldValid(l, source[off..off + size], w)
    modifies file
    ensures OnlySource(source, old(file.bytes), file.bytes, off, off + size)
    ensures err.None? ==> reported == size && Right(source, file.bytes, off, off + size)
    ensures err.None? <==> Agree(l, source[off..off + size]) && w.failsAfter.None? && GetsUsable(l, w, maxRetries)
    ensures err.Some? && err != Some(FileError) ==> file.bytes == old(file.bytes)
    ensures var r := ReadFrom(l, 0, maxRetries, w).0;
            (err, file.bytes) == DownloadOf(l, source[off..off + size], old(file.bytes), off, r, w)
  {
    ghost var chunk := source[off..off + size];
    DownloadOfSource(l, source, file.bytes, off, size, ReadFrom(l, 0, maxRetries, w).0, w);
    var r, tries := ReadWithRetries(l, chunk, maxRetries, w);
    if r.Err? {
      return Some(r.error), 0;
    }
    var data := Decode(l, chunk, r.value);
    if data.None? {
      return Some(Undecodable), 0;
    }
    var ok := file.Write(off, data.value, w.failsAfter);
    if !ok {
      return Some(FileError), 0;
    }
    return None, |data.value|;
  }
}
