/** Which error a chunk's callback returns, and what its attempts leave behind, whether or not they succeed. */
module CallbackErrors {
  import opened Prelude
  import opened Files
  import opened Callbacks

  // ---- upload

  /** The server takes the chunk and confirms it. */
  predicate Accepted(l: Link, buf: seq<byte>, fate: WriteFate) {
    fate == Answered(None) && Agree(l, buf)
  }

  /** Attempt i is made: the context was alive before it and all the attempts before it failed. */
  ghost predicate Made(l: Link, buf: seq<byte>, w: WriteWorld, i: nat) {
    && (forall j | 0 <= j < i :: !Accepted(l, buf, w.fate(j)) && !w.doneInBackoff(j))
    && (forall j | 0 <= j <= i :: !w.doneBefore(j))
  }

  /** Between attempts the context is found done. */
  ghost predicate Interrupted(l: Link, buf: seq<byte>, w: WriteWorld, maxRetries: nat) {
    || w.doneBefore(0)
    || exists i :: 0 <= i < maxRetries && Made(l, buf, w, i) && !Accepted(l, buf, w.fate(i))
                   && (w.doneInBackoff(i) || w.doneBefore(i + 1))
  }

  lemma {:induction false} UploadErrorFrom(l: Link, buf: seq<byte>, before: seq<byte>, off: nat, k: nat,
                                           maxRetries: nat, w: WriteWorld)
    requires k <= maxRetries
    requires forall j | 0 <= j < k :: !Accepted(l, buf, w.fate(j)) && !w.doneInBackoff(j) && !w.doneBefore(j)
    ensures var (err, _, tries) := UploadFrom(l, buf, before, off, k, maxRetries, w);
            && (err == None <==> exists i :: k <= i <= maxRetries && Made(l, buf, w, i) && Accepted(l, buf, w.fate(i)))
            && (err == Some(ContextDone) <==>
                  || w.doneBefore(k)
                  || exists i :: k <= i < maxRetries && Made(l, buf, w, i) && !Accepted(l, buf, w.fate(i))
                                 && (w.doneInBackoff(i) || w.doneBefore(i + 1)))
            && (err.Some? && err != Some(ContextDone) ==>
                  err.value == if w.fate(maxRetries).Unanswered? then NoResponse else Refused)
    decreases maxRetries - k
  {
    var after := AttemptBytes(l, buf, before, off, w.fate(k));
    if !w.doneBefore(k) {
      assert Made(l, buf, w, k);
      if !Accepted(l, buf, w.fate(k)) && k < maxRetries && !w.doneInBackoff(k) {
        UploadErrorFrom(l, buf, after, off, k + 1, maxRetries, w);
      }
    }
  }

  /**
   The result of uploadFileChunk for a chunk of the source: nil exactly if some attempt is made and accepted; the
   context's error exactly if it is found done before or between attempts; otherwise the last attempt's error.
   */
  lemma UploadErrorIs(l: Link, buf: seq<byte>, before: seq<byte>, off: nat, maxRetries: nat, w: WriteWorld)
    ensures var err := UploadFrom(l, buf, before, off, 0, maxRetries, w).0;
            && (err == None <==> exists i :: 0 <= i <= maxRetries && Made(l, buf, w, i) && Accepted(l, buf, w.fate(i)))
            && (err == Some(ContextDone) <==> Interrupted(l, buf, w, maxRetries))
            && (err.Some? && err != Some(ContextDone) ==>
                  err.value == if w.fate(maxRetries).Unanswered? then NoResponse else Refused)
  {
    UploadErrorFrom(l, buf, before, off, 0, maxRetries, w);
  }

  /** The request of this attempt reaches the server, and the keys agree. */
  predicate Arrives(l: Link, buf: seq<byte>, fate: WriteFate) {
    Agree(l, buf) && (fate.Answered? || fate.arrives)
  }

  /** How far a write of this size gets. */
  function Reached(size: nat, failsAfter: Option<nat>): nat {
    if failsAfter.Some? && failsAfter.value < size then failsAfter.value else size
  }

  /** So many bytes of the chunk at off were written, and nothing else. */
  ghost predicate Begins(source: seq<byte>, before: seq<byte>, after: seq<byte>, off: nat, n: nat) {
    Right(source, after, off, off + n) && OnlySource(source, before, after, off, off + n)
  }

  lemma PartBegins(source: seq<byte>, before: seq<byte>, off: nat, buf: seq<byte>, d: seq<byte>)
    requires off + |buf| <= |source| && buf == source[off..off + |buf|] && d <= buf
    ensures Begins(source, before, WriteAt(before, off, d), off, |d|)
  {
    assert d == source[off..off + |d|];
    WriteExtendsRight(source, before, off, off, off + |d|);
    LandIsOnlySource(source, before, before, off, off + |d|, |d|);
  }

  /** An attempt that fails may still have written: as much as arrived and the server's write got to. */
  lemma AttemptWrites(l: Link, source: seq<byte>, before: seq<byte>, off: nat, size: nat, fate: WriteFate)
    requires off + size <= |source|
    ensures var buf := source[off..off + size];
            var after := AttemptBytes(l, buf, before, off, fate);
            && (!Arrives(l, buf, fate) ==> after == before)
            && (Arrives(l, buf, fate) ==>
                  Begins(source, before, after, off, Reached(size, fate.failsAfter)))
  {
    var buf := source[off..off + size];
    if Arrives(l, buf, fate) {
      var d := Landed(buf, fate.failsAfter);
      PartBegins(source, before, off, buf, d);
      assert |buf| == size && |d| == Reached(size, fate.failsAfter);
    }
  }

  // ---- download

  /** A response is used unless checksums are on, it carries one, and its payload has another. */
  lemma UsableIff(l: Link, fate: ReadFate)
    ensures Usable(l, fate) <==>
              && fate.Data?
              && (l.useChecksum && fate.packed.checksum != 0 ==> l.lib.crc(fate.packed.payload) == fate.packed.checksum)
  {
  }

  ghost predicate ReadMade(l: Link, w: ReadWorld, i: nat) {
    && (forall j | 0 <= j < i :: !Usable(l, w.fate(j)) && !w.doneInBackoff(j))
    && (forall j | 0 <= j <= i :: !w.doneBefore(j))
  }

  lemma {:induction false} ReadErrorFrom(l: Link, k: nat, maxRetries: nat, w: ReadWorld)
    requires k <= maxRetries
    requires forall j | 0 <= j < k :: !Usable(l, w.fate(j)) && !w.doneInBackoff(j) && !w.doneBefore(j)
    ensures var (r, tries) := ReadFrom(l, k, maxRetries, w);
            && (forall p :: r == Ok(p) <==>
                  exists i :: k <= i <= maxRetries && ReadMade(l, w, i) && Usable(l, w.fate(i)) && w.fate(i) == Data(p))
            && (r == Err(ContextDone) <==>
                  || w.doneBefore(k)
                  || exists i :: k <= i < maxRetries && ReadMade(l, w, i) && !Usable(l, w.fate(i))
                                 && (w.doneInBackoff(i) || w.doneBefore(i + 1)))
            && (r.Err? && r.error != ContextDone ==>
                  r.error == match w.fate(maxRetries)
                             case NoReply => NoResponse
                             case ReadFailed => Refused
                             case Data(_) => ChecksumMismatch)
    decreases maxRetries - k
  {
    if !w.doneBefore(k) {
      assert ReadMade(l, w, k);
      if !Usable(l, w.fate(k)) && k < maxRetries && !w.doneInBackoff(k) {
        ReadErrorFrom(l, k + 1, maxRetries, w);
      }
    }
  }

  /**
   The result of the download callback: what the read loop ends with; then a decoding error if the keys do not agree;
   then the local write's. Only that one leaves anything in the file, the beginning of the chunk.
   */
  lemma DownloadErrorIs(l: Link, source: seq<byte>, before: seq<byte>, off: nat, size: nat, maxRetries: nat,
                        w: ReadWorld)
    requires off + size <= |source|
    ensures var r := ReadFrom(l, 0, maxRetries, w).0;
            var data := source[off..off + size];
            var (err, after) := DownloadOf(l, data, before, off, r, w);
            && (r.Err? ==> err == Some(r.error) && after == before)
            && (err == Some(Undecodable) && r.Ok? <==> r.Ok? && !Agree(l, data))
            && (err == Some(FileError) && r.Ok? <==> r.Ok? && Agree(l, data) && w.failsAfter.Some?)
            && (r.Ok? && !Agree(l, data) ==> after == before)
            && (r.Ok? && Agree(l, data) ==>
                  Begins(source, before, after, off, Reached(size, w.failsAfter)))
  {
    var data := source[off..off + size];
    PartBegins(source, before, off, data, Landed(data, w.failsAfter));
    assert |Landed(data, w.failsAfter)| == Reached(size, w.failsAfter);
  }
}
