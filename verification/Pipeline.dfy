/**
 What happens to a chunk's bytes between the two file systems: compressChunk, encryptChunk and their inverses
 (transfer.go), as Write and the download callback use them on one side (client.go, cp_from_host.go) and the
 write and read handlers on the other (serve.go). The codecs themselves are library code and are parameters.
 */
module Pipeline {
  import opened Prelude
  import opened Codec

  const COMPRESSION_NONE: byte := 0
  const COMPRESSION_GZIP: byte := 1
  const ENCRYPTION_NONE: byte := 0
  const ENCRYPTION_SECRET_BOX: byte := 1
  const NONCE_SIZE: nat := 24
  const BOX_OVERHEAD: nat := 16

  /** gzip at its default level, secretbox, and CRC-32 IEEE. */
  datatype Library = Library(
    gzip: seq<byte> -> seq<byte>,
    gunzip: seq<byte> -> Option<seq<byte>>,
    seal: (seq<byte>, Key, seq<byte>) -> seq<byte>,
    open: (seq<byte>, Key, seq<byte>) -> Option<seq<byte>>,
    crc: seq<byte> -> nat)

  /** What the libraries promise: inverses, the sealing overhead, and that an empty stream is not gzip. */
  ghost predicate Lawful(lib: Library) {
    && (forall x :: lib.gunzip(lib.gzip(x)) == Some(x))
    && lib.gunzip([]) == None
    && (forall n, k, x :: lib.open(n, k, lib.seal(n, k, x)) == Some(x))
    && (forall n, k, x :: |lib.seal(n, k, x)| == |x| + BOX_OVERHEAD)
  }

  /** What is sealed under the one key does not open under the other. */
  ghost predicate Authentic(lib: Library, k: Key, k': Key) {
    k != k' ==> forall n, x :: lib.open(n, k', lib.seal(n, k, x)) == None
  }

  /** Sixteen bytes that tell one key from all others. */
  function Tag(k: Key, other: Key): (t: seq<byte>)
    ensures |t| == BOX_OVERHEAD
  {
    if other == k then seq(BOX_OVERHEAD, _ => 1) else seq(BOX_OVERHEAD, _ => 0)
  }

  function Unseal(k: Key, other: Key, box: seq<byte>): Option<seq<byte>> {
    if BOX_OVERHEAD <= |box| && box[..BOX_OVERHEAD] == Tag(k, other) then Some(box[BOX_OVERHEAD..]) else None
  }

  function Gunzip(x: seq<byte>): Option<seq<byte>> {
    if x == [] then None else Some(x[1..])
  }

  /** The laws can be met, for any two keys and in both directions. */
  lemma LawsCanBeMet(k: Key, k': Key) returns (lib: Library)
    ensures Lawful(lib) && Authentic(lib, k, k') && Authentic(lib, k', k)
  {
    lib := Library((x: seq<byte>) => [0] + x, Gunzip, (n, other, x) => Tag(k, other) + x,
                   (n, other, box) => Unseal(k, other, box), x => 0);
    forall n, other, x ensures lib.open(n, other, lib.seal(n, other, x)) == Some(x) {
      assert (Tag(k, other) + x)[..BOX_OVERHEAD] == Tag(k, other);
    }
    if k != k' {
      assert Tag(k, k)[0] != Tag(k, k')[0];
      forall n, x ensures lib.open(n, k', lib.seal(n, k, x)) == None && lib.open(n, k, lib.seal(n, k', x)) == None {
        assert (Tag(k, k) + x)[..BOX_OVERHEAD] == Tag(k, k);
        assert (Tag(k, k') + x)[..BOX_OVERHEAD] == Tag(k, k');
      }
    }
  }

  /** Compression that does not shrink is skipped, and so is any algorithm but gzip. */
  function CompressChunk(lib: Library, data: seq<byte>, algo: byte): (seq<byte>, byte) {
    if algo == COMPRESSION_NONE || |data| == 0 then (data, COMPRESSION_NONE)
    else if algo == COMPRESSION_GZIP then
      var compressed := lib.gzip(data);
      if |compressed| >= |data| then (data, COMPRESSION_NONE) else (compressed, algo)
    else (data, COMPRESSION_NONE)
  }

  function DecompressChunk(lib: Library, data: seq<byte>, algo: byte): Option<seq<byte>> {
    if algo == COMPRESSION_NONE || |data| == 0 then Some(data)
    else if algo == COMPRESSION_GZIP then lib.gunzip(data)
    else Some(data)
  }

  /** nonce || box; a nil key or no data leaves the data alone. */
  function EncryptChunk(lib: Library, data: seq<byte>, key: Option<Key>, nonce: seq<byte>): seq<byte> {
    if key.None? || |data| == 0 then data else nonce + lib.seal(nonce, key.value, data)
  }

  function DecryptChunk(lib: Library, data: seq<byte>, key: Option<Key>): Option<seq<byte>> {
    if key.None? || |data| == 0 then Some(data)
    else if |data| < NONCE_SIZE then None
    else lib.open(data[..NONCE_SIZE], key.value, data[NONCE_SIZE..])
  }

  /** The parts of a WriteReq or ReadRes that say how its payload is to be read. */
  datatype Packed = Packed(payload: seq<byte>, compression: byte, encryption: byte, checksum: nat)

  function Pack(lib: Library, data: seq<byte>, algo: byte, encrypt: bool, key: Option<Key>, nonce: seq<byte>): Packed {
    var (compressed, used) := CompressChunk(lib, data, algo);
    if encrypt then Packed(EncryptChunk(lib, compressed, key, nonce), used, ENCRYPTION_SECRET_BOX, 0)
    else Packed(compressed, used, ENCRYPTION_NONE, 0)
  }

  /** copierClient.Write: the checksum covers what is sent, and is left zero when off or when nothing is sent. */
  function ClientWrite(lib: Library, data: seq<byte>, algo: byte, encrypt: bool, key: Option<Key>, nonce: seq<byte>,
                       useChecksum: bool): Packed {
    var p := Pack(lib, data, algo, encrypt, key, nonce);
    p.(checksum := if useChecksum && |p.payload| > 0 then lib.crc(p.payload) else 0)
  }

  /** The server's read handler after ReadAt: the checksum is always sent. */
  function ServerRead(lib: Library, data: seq<byte>, algo: byte, encryption: byte, key: Option<Key>,
                      nonce: seq<byte>): Packed {
    var p := Pack(lib, data, algo, encryption == ENCRYPTION_SECRET_BOX, key, nonce);
    p.(checksum := lib.crc(p.payload))
  }

  function Unpack(lib: Library, p: Packed, key: Option<Key>): Option<seq<byte>> {
    if p.encryption == ENCRYPTION_SECRET_BOX then
      match DecryptChunk(lib, p.payload, key)
      case None => None
      case Some(chunk) => DecompressChunk(lib, chunk, p.compression)
    else DecompressChunk(lib, p.payload, p.compression)
  }

  /** The server's write handler before WriteAt. */
  function ServerWrite(lib: Library, p: Packed, key: Option<Key>): Option<seq<byte>> {
    if p.checksum != 0 && lib.crc(p.payload) != p.checksum then None else Unpack(lib, p, key)
  }

  /** The download callback before WriteAt. */
  function ClientRead(lib: Library, p: Packed, key: Option<Key>, useChecksum: bool): Option<seq<byte>> {
    if useChecksum && p.checksum != 0 && lib.crc(p.payload) != p.checksum then None else Unpack(lib, p, key)
  }

  lemma GzipNotEmpty(lib: Library, x: seq<byte>)
    requires Lawful(lib)
    ensures lib.gzip(x) != []
  {
    assert lib.gunzip(lib.gzip(x)) == Some(x);
  }

  /** Compression never grows a chunk, never empties one, and is undone by decompression. */
  lemma CompressRoundTrip(lib: Library, data: seq<byte>, algo: byte)
    requires Lawful(lib)
    ensures var (c, used) := CompressChunk(lib, data, algo);
            && |c| <= |data| && (c == [] <==> data == [])
            && DecompressChunk(lib, c, used) == Some(data)
  {
    GzipNotEmpty(lib, data);
  }

  /** Encryption of anything costs exactly 40 bytes, and the same key undoes it. */
  lemma EncryptRoundTrip(lib: Library, data: seq<byte>, key: Option<Key>, nonce: seq<byte>)
    requires Lawful(lib) && |nonce| == NONCE_SIZE
    ensures var e := EncryptChunk(lib, data, key, nonce);
            && |e| == |data| + (if key.Some? && data != [] then 40 else 0)
            && DecryptChunk(lib, e, key) == Some(data)
  {
    if key.Some? && data != [] {
      var box := lib.seal(nonce, key.value, data);
      assert (nonce + box)[..NONCE_SIZE] == nonce && (nonce + box)[NONCE_SIZE..] == box;
    }
  }

  lemma PackRoundTrip(lib: Library, data: seq<byte>, algo: byte, encrypt: bool, key: Option<Key>, nonce: seq<byte>)
    requires Lawful(lib) && |nonce| == NONCE_SIZE
    ensures Unpack(lib, Pack(lib, data, algo, encrypt, key, nonce), key) == Some(data)
    ensures |Pack(lib, data, algo, encrypt, key, nonce).payload| <= |data| + 40
  {
    CompressRoundTrip(lib, data, algo);
    EncryptRoundTrip(lib, CompressChunk(lib, data, algo).0, key, nonce);
  }

  /** Upload: for all data, algorithms, encryption choices and keys, the server writes the bytes that were read. */
  lemma WriteRoundTrip(lib: Library, data: seq<byte>, algo: byte, encrypt: bool, key: Option<Key>, nonce: seq<byte>,
                       useChecksum: bool)
    requires Lawful(lib) && |nonce| == NONCE_SIZE
    ensures ServerWrite(lib, ClientWrite(lib, data, algo, encrypt, key, nonce, useChecksum), key) == Some(data)
  {
    PackRoundTrip(lib, data, algo, encrypt, key, nonce);
    var p := Pack(lib, data, algo, encrypt, key, nonce);
    var w := ClientWrite(lib, data, algo, encrypt, key, nonce, useChecksum);
    assert w == p.(checksum := w.checksum);
    assert Unpack(lib, w, key) == Unpack(lib, p, key);
  }

  /** Download: likewise for what the server read and the client writes. */
  lemma ReadRoundTrip(lib: Library, data: seq<byte>, algo: byte, encryption: byte, key: Option<Key>, nonce: seq<byte>,
                      useChecksum: bool)
    requires Lawful(lib) && |nonce| == NONCE_SIZE
    ensures ClientRead(lib, ServerRead(lib, data, algo, encryption, key, nonce), key, useChecksum) == Some(data)
  {
    var encrypt := encryption == ENCRYPTION_SECRET_BOX;
    PackRoundTrip(lib, data, algo, encrypt, key, nonce);
    var p := Pack(lib, data, algo, encrypt, key, nonce);
    var r := ServerRead(lib, data, algo, encryption, key, nonce);
    assert r == p.(checksum := r.checksum);
    assert Unpack(lib, r, key) == Unpack(lib, p, key);
  }

  /** What comes out between two keyed ends: everything, or, if something is encrypted and the keys differ, nothing. */
  lemma UnpackUnderKey(lib: Library, data: seq<byte>, algo: byte, encrypt: bool, k: Key, k': Key, nonce: seq<byte>)
    requires Lawful(lib) && Authentic(lib, k, k') && |nonce| == NONCE_SIZE
    ensures Unpack(lib, Pack(lib, data, algo, encrypt, Some(k), nonce), Some(k')) ==
              if KeysSuffice(encrypt, data, k, k') then Some(data) else None
  {
    PackRoundTrip(lib, data, algo, encrypt, Some(k), nonce);
    CompressRoundTrip(lib, data, algo);
    var c := CompressChunk(lib, data, algo).0;
    if encrypt && data != [] {
      var box := lib.seal(nonce, k, c);
      assert (nonce + box)[..NONCE_SIZE] == nonce && (nonce + box)[NONCE_SIZE..] == box;
      assert k != k' ==> lib.open(nonce, k', box) == None;
    }
  }

  predicate KeysSuffice(encrypt: bool, data: seq<byte>, k: Key, k': Key) {
    !encrypt || data == [] || k == k'
  }

  /** So an upload gets its bytes through exactly when nothing is encrypted or the keys agree. */
  lemma KeysMustAgree(lib: Library, data: seq<byte>, algo: byte, encrypt: bool, k: Key, k': Key, nonce: seq<byte>,
                      useChecksum: bool)
    requires Lawful(lib) && Authentic(lib, k, k') && |nonce| == NONCE_SIZE
    ensures ServerWrite(lib, ClientWrite(lib, data, algo, encrypt, Some(k), nonce, useChecksum), Some(k')) ==
              if KeysSuffice(encrypt, data, k, k') then Some(data) else None
  {
    UnpackUnderKey(lib, data, algo, encrypt, k, k', nonce);
    var p := Pack(lib, data, algo, encrypt, Some(k), nonce);
    var w := ClientWrite(lib, data, algo, encrypt, Some(k), nonce, useChecksum);
    assert w == p.(checksum := w.checksum);
    assert Unpack(lib, w, Some(k')) == Unpack(lib, p, Some(k'));
  }

  /** A chunk of up to 2^24-40 bytes always fits a frame; sent encrypted without compression, no larger one does. */
  lemma ChunkFitsFrame(lib: Library, data: seq<byte>, algo: byte, encrypt: bool, key: Option<Key>, nonce: seq<byte>,
                       useChecksum: bool)
    requires Lawful(lib) && |nonce| == NONCE_SIZE
    ensures var sent := |ClientWrite(lib, data, algo, encrypt, key, nonce, useChecksum).payload|;
            && (|data| <= MAX_PAYLOAD_SIZE - 40 ==> sent <= MAX_PAYLOAD_SIZE)
            && (encrypt && key.Some? && algo == COMPRESSION_NONE && data != [] ==>
                  (sent <= MAX_PAYLOAD_SIZE <==> |data| <= MAX_PAYLOAD_SIZE - 40))
  {
    PackRoundTrip(lib, data, algo, encrypt, key, nonce);
    EncryptRoundTrip(lib, data, key, nonce);
  }

  // ---- what is sent, and what is refused

  /** Gzip, number 1, is used exactly if it is asked for and makes the chunk smaller; else the chunk goes as it is. */
  lemma GzipIffSmaller(lib: Library, data: seq<byte>, algo: byte, key: Option<Key>, nonce: seq<byte>,
                       useChecksum: bool)
    ensures var w := ClientWrite(lib, data, algo, false, key, nonce, useChecksum);
            && (w.compression == 1 <==> algo == 1 && data != [] && |lib.gzip(data)| < |data|)
            && (w.compression == 0 <==> w.compression != 1)
            && w.payload == (if w.compression == 1 then lib.gzip(data) else data)
            && w.encryption == 0
  {
  }

  /** With encryption on, what would be sent plainly is sealed under the key and a nonce that goes before it. */
  lemma SealedIffAsked(lib: Library, data: seq<byte>, algo: byte, key: Option<Key>, nonce: seq<byte>,
                       useChecksum: bool)
    requires Lawful(lib) && |nonce| == NONCE_SIZE
    ensures var plain := ClientWrite(lib, data, algo, false, key, nonce, useChecksum);
            var boxed := ClientWrite(lib, data, algo, true, key, nonce, useChecksum);
            && boxed.encryption == 1 && boxed.compression == plain.compression
            && (key.None? || data == [] ==> boxed.payload == plain.payload)
            && (key.Some? && data != [] ==>
                  && |boxed.payload| > NONCE_SIZE && boxed.payload[..NONCE_SIZE] == nonce
                  && boxed.payload[NONCE_SIZE..] == lib.seal(nonce, key.value, plain.payload))
  {
    CompressRoundTrip(lib, data, algo);
    if key.Some? && data != [] {
      var box := lib.seal(nonce, key.value, CompressChunk(lib, data, algo).0);
      assert (nonce + box)[..NONCE_SIZE] == nonce && (nonce + box)[NONCE_SIZE..] == box;
    }
  }

  /**
   A payload that was altered on the way to the server is refused for its checksum exactly if checksums are on, there
   was a payload, its checksum is not zero, which stands for none, and the altered one differs.
   */
  lemma AlteredWriteRefused(lib: Library, data: seq<byte>, algo: byte, encrypt: bool, key: Option<Key>,
                            nonce: seq<byte>, useChecksum: bool, altered: seq<byte>)
    ensures var w := ClientWrite(lib, data, algo, encrypt, key, nonce, useChecksum);
            var refused := useChecksum && w.payload != [] && lib.crc(w.payload) != 0
                           && lib.crc(altered) != lib.crc(w.payload);
            && w.checksum == (if useChecksum && w.payload != [] then lib.crc(w.payload) else 0)
            && ServerWrite(lib, w.(payload := altered), key) ==
               (if refused then None else Unpack(lib, w.(payload := altered), key))
  {
  }

  /** On the way to the client likewise; the server always sends a checksum, and the client may not look at it. */
  lemma AlteredReadRefused(lib: Library, data: seq<byte>, algo: byte, encryption: byte, key: Option<Key>,
                           nonce: seq<byte>, useChecksum: bool, altered: seq<byte>)
    ensures var r := ServerRead(lib, data, algo, encryption, key, nonce);
            var refused := useChecksum && lib.crc(r.payload) != 0 && lib.crc(altered) != lib.crc(r.payload);
            && r.checksum == lib.crc(r.payload)
            && ClientRead(lib, r.(payload := altered), key, useChecksum) ==
               (if refused then None else Unpack(lib, r.(payload := altered), key))
  {
  }

  /** Flags that say nothing known leave a payload alone, and what is too short for a nonce is refused. */
  lemma UnpackAtTheEdges(lib: Library, p: Packed, key: Option<Key>)
    ensures p.encryption != ENCRYPTION_SECRET_BOX && p.compression != COMPRESSION_GZIP ==>
              Unpack(lib, p, key) == Some(p.payload)
    ensures p.encryption == ENCRYPTION_SECRET_BOX && key.Some? && 0 < |p.payload| < NONCE_SIZE ==>
              Unpack(lib, p, key) == None
    ensures p.encryption == ENCRYPTION_SECRET_BOX && (key.None? || p.payload == []) ==>
              Unpack(lib, p, key) == Unpack(lib, p.(encryption := ENCRYPTION_NONE), key)
    ensures p.payload == [] ==> Unpack(lib, p, key) == Some([])
  {
  }
}
