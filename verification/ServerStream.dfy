/**
 The server's side of the wire: ReadMessage over a peek/discard reader (message/message.go) and the
 OnTraffic loop that hands complete messages to the workers (serve.go).
 */
module ServerStream {
  import opened Prelude
  import opened Codec
  import opened Framing

  /** ReadMessage as a function of the buffered bytes. */
  function ReadOne(dec: BodyDecoder, buf: seq<byte>): (r: ReadResult)
    ensures r.Got? ==> HEAD_SIZE <= r.size <= |buf|
  {
    if |buf| < 2 then Incomplete
    else if !MagicNumberCheck(buf[0], buf[1]) then Rejected(BadMagic)
    else if |buf| < HEAD_SIZE then Incomplete
    else match DecodePre(buf[..HEAD_SIZE])
      case Err(e) => Rejected(BadHead(e))
      case Ok(h) =>
        var size := HEAD_SIZE + h.msgSize + h.payloadSize;
        if |buf| < size then Incomplete
        else
          var body := buf[HEAD_SIZE..HEAD_SIZE + h.msgSize];
          if !dec(h.msgType, body) then Rejected(BadBody)
          else Got(Frame(h.msgType, body, buf[HEAD_SIZE + h.msgSize..size]), size)
  }

  /** The server treats every frame alike, first or not. */
  function ServerReader(dec: BodyDecoder): Reader {
    (first: bool, buf: seq<byte>) => ReadOne(dec, buf)
  }

  /** The part of gnet.Conn that ReadMessage uses: the bytes received and not yet consumed. */
  class PacketReader {
    var inbound: seq<byte>

    constructor ()
      ensures inbound == []
    {
      inbound := [];
    }

    /** None stands for io.ErrShortBuffer. */
    method Peek(n: nat) returns (r: Option<seq<byte>>)
      ensures r == if n <= |inbound| then Some(inbound[..n]) else None
    {
      r := if n <= |inbound| then Some(inbound[..n]) else None;
    }

    method Discard(n: nat)
      requires n <= |inbound|
      modifies this
      ensures inbound == old(inbound)[n..]
    {
      inbound := inbound[n..];
    }
  }

  method ReadMessage(r: PacketReader, dec: BodyDecoder) returns (res: ReadResult)
    modifies r
    ensures res == ReadOne(dec, old(r.inbound))
    ensures r.inbound == if res.Got? then old(r.inbound)[res.size..] else old(r.inbound)
  {
    var magic := r.Peek(2);
    if magic.None? { return Incomplete; }
    if !MagicNumberCheck(magic.value[0], magic.value[1]) { return Rejected(BadMagic); }
    var head := r.Peek(HEAD_SIZE);
    if head.None? { return Incomplete; }
    var pre := DecodePre(head.value);
    if pre.Err? { return Rejected(BadHead(pre.error)); }
    var msgSize, payloadSize := pre.value.msgSize, pre.value.payloadSize;
    var whole := r.Peek(HEAD_SIZE + msgSize + payloadSize);
    if whole.None? { return Incomplete; }
    var body := whole.value[HEAD_SIZE..HEAD_SIZE + msgSize];
    assert body == r.inbound[HEAD_SIZE..HEAD_SIZE + msgSize];
    if !dec(pre.value.msgType, body) { return Rejected(BadBody); }
    var payload := whole.value[HEAD_SIZE + msgSize..];
    r.Discard(|whole.value|);
    return Got(Frame(pre.value.msgType, body, payload), |whole.value|);
  }

  /**
   What ReadMessage delivers, in terms of the encoder alone: it delivers f and takes n bytes exactly
   when the buffer starts with the n-byte encoding of f, f is within limits and its body decodes.
   */
  lemma ReadsExactlyEncodedFrames(dec: BodyDecoder, buf: seq<byte>, f: Frame, n: nat)
    ensures ReadOne(dec, buf) == Got(f, n) <==>
            WithinLimits(f) && dec(f.msgType, f.body) && n == |EncodeFrame(f)| && EncodeFrame(f) <= buf
  {
    if WithinLimits(f) && dec(f.msgType, f.body) && n == |EncodeFrame(f)| && EncodeFrame(f) <= buf {
      assert buf == EncodeFrame(f) + buf[n..];
      FrameAtFront(f, buf[n..]);
    }
    if ReadOne(dec, buf) == Got(f, n) {
      var head := buf[..HEAD_SIZE];
      EncodeMsgAfterDecodePre(head);
      assert head[..HEAD_SIZE] == head;
      assert buf[..n] == head + f.body + f.payload;
    }
  }

  /** An incomplete frame: no proper prefix of an encoded frame is delivered or rejected. */
  lemma ProperPrefixIncomplete(dec: BodyDecoder, f: Frame, n: nat)
    requires WithinLimits(f) && n < |EncodeFrame(f)|
    ensures ReadOne(dec, EncodeFrame(f)[..n]) == Incomplete
  {
    var e := EncodeFrame(f);
    FrameAtFront(f, []);
    assert e + [] == e;
    if n >= HEAD_SIZE {
      assert e[..n][..HEAD_SIZE] == e[..HEAD_SIZE];
    }
  }

  /** More bytes never change a verdict already reached. */
  lemma ReadOneStable(dec: BodyDecoder, buf: seq<byte>, more: seq<byte>)
    requires !ReadOne(dec, buf).Incomplete?
    ensures ReadOne(dec, buf + more) == ReadOne(dec, buf)
  {
    if |buf| >= HEAD_SIZE {
      assert (buf + more)[..HEAD_SIZE] == buf[..HEAD_SIZE];
      var pre := DecodePre(buf[..HEAD_SIZE]);
      if pre.Ok? {
        var m := HEAD_SIZE + pre.value.msgSize;
        var size := m + pre.value.payloadSize;
        if |buf| >= size {
          assert (buf + more)[HEAD_SIZE..m] == buf[HEAD_SIZE..m];
          assert (buf + more)[m..size] == buf[m..size];
        }
      }
    }
  }

  lemma ServerReaderIncremental(dec: BodyDecoder)
    ensures Incremental(ServerReader(dec))
    ensures forall first: bool :: ServerReader(dec)(first, []) == Incomplete
  {
    var read := ServerReader(dec);
    forall first: bool, buf: seq<byte>, more: seq<byte> | !read(first, buf).Incomplete?
      ensures read(first, buf + more) == read(first, buf)
    {
      ReadOneStable(dec, buf, more);
    }
  }

  lemma ServerReadsFrame(dec: BodyDecoder, f: Frame)
    requires WithinLimits(f) && dec(f.msgType, f.body)
    ensures ReadsFrame(ServerReader(dec), f)
  {
    var read := ServerReader(dec);
    forall first: bool, t: seq<byte>
      ensures read(first, EncodeFrame(f) + t) == Got(f, |EncodeFrame(f)|)
    {
      ReadsExactlyEncodedFrames(dec, EncodeFrame(f) + t, f, |EncodeFrame(f)|);
    }
    forall first: bool, n: nat | n < |EncodeFrame(f)|
      ensures read(first, EncodeFrame(f)[..n]) == Incomplete
    {
      ProperPrefixIncomplete(dec, f, n);
    }
  }

  /** The server's whole treatment of a byte stream. */
  function ServerParse(dec: BodyDecoder, s: seq<byte>): Parsed {
    Parse(ServerReader(dec), true, s)
  }

  /** After n bytes of an encoded stream the server has dispatched exactly the frames within them. */
  lemma ServerDispatchesArrivedFrames(dec: BodyDecoder, fs: seq<Frame>, n: nat)
    requires forall f | f in fs :: WithinLimits(f) && dec(f.msgType, f.body)
    requires n <= |EncodeStream(fs)|
    ensures var p := ServerParse(dec, EncodeStream(fs)[..n]);
            p.Open? && p.frames == fs[..Arrived(fs, n)]
  {
    forall f | f in fs ensures ReadsFrame(ServerReader(dec), f) {
      ServerReadsFrame(dec, f);
    }
    ServerReaderIncremental(dec);
    ParseOfEncodedStream(ServerReader(dec), true, fs, n);
  }

  /**
   The server never loses or invents a byte: what it dispatched, encoded again, followed by the bytes
   it has not yet taken, is the stream; and it dispatches only frames within limits whose body decodes.
   */
  lemma ServerConservesBytes(dec: BodyDecoder, s: seq<byte>)
    ensures var p := ServerParse(dec, s);
            && EncodeStream(p.frames) <= s
            && (forall f | f in p.frames :: WithinLimits(f) && dec(f.msgType, f.body))
            && (p.Open? ==> s == EncodeStream(p.frames) + p.rest)
  {
    var read := ServerReader(dec);
    var allowed := (f: Frame) => WithinLimits(f) && dec(f.msgType, f.body);
    forall first: bool, buf: seq<byte> | read(first, buf).Got?
      ensures allowed(read(first, buf).frame)
      ensures EncodeFrame(read(first, buf).frame) == buf[..read(first, buf).size]
    {
      ReadsExactlyEncodedFrames(dec, buf, read(first, buf).frame, read(first, buf).size);
    }
    ParseConservesBytes(read, allowed, true, s);
  }

  /** A server connection: OnTraffic runs each time bytes arrive. */
  class ServerConn {
    const reader: PacketReader
    const dec: BodyDecoder
    var dispatched: seq<Frame>
    var closed: bool

    constructor (dec: BodyDecoder)
      ensures State() == Open([], []) && fresh(reader) && this.dec == dec
    {
      this.dec := dec;
      reader := new PacketReader();
      dispatched := [];
      closed := false;
    }

    function State(): Parsed
      reads this, reader
    {
      if closed then Closed(dispatched) else Open(dispatched, reader.inbound)
    }

    /** One callback: gnet has appended `data` to the inbound buffer of an open connection. */
    method OnTraffic(data: seq<byte>)
      requires !closed
      modifies this, reader
      ensures State() == Then(old(dispatched), Parse(ServerReader(dec), false, old(reader.inbound) + data))
    {
      ghost var read := ServerReader(dec);
      reader.inbound := reader.inbound + data;
      ghost var start := reader.inbound;
      ghost var begun := dispatched;
      ghost var here := [];
      ThenThen([], [], Parse(read, false, start));
      while true
        invariant !closed && dispatched == begun + here
        invariant Parse(read, false, start) == Then(here, Parse(read, false, reader.inbound))
        decreases |reader.inbound|
      {
        ghost var before := reader.inbound;
        var res := ReadMessage(reader, dec);
        assert res == read(false, before);
        match res {
          case Incomplete =>
            return;
          case Rejected(_) =>
            closed := true;
            return;
          case Got(f, n) =>
            dispatched := dispatched + [f];
            ThenThen(here, [f], Parse(read, false, reader.inbound));
            here := here + [f];
        }
      }
    }

    /** A whole connection, its bytes arriving in any pieces: only their concatenation matters. */
    method Serve(pieces: seq<seq<byte>>)
      requires State() == Open([], [])
      modifies this, reader
      ensures State() == ServerParse(dec, Flatten(pieces))
    {
      ghost var read := ServerReader(dec);
      ServerReaderIncremental(dec);
      var i := 0;
      while i < |pieces| && !closed
        invariant 0 <= i <= |pieces|
        invariant State() == Feed(read, pieces[..i])
      {
        assert pieces[..i + 1][..i] == pieces[..i];
        ServerIgnoresFirst(dec, StillFirst(true, State()), reader.inbound + pieces[i]);
        OnTraffic(pieces[i]);
        i := i + 1;
      }
      FeedAfterClose(read, pieces, i);
      FragmentationIndependence(read, pieces);
    }
  }

  lemma ServerIgnoresFirst(dec: BodyDecoder, first: bool, s: seq<byte>)
    ensures Parse(ServerReader(dec), first, s) == Parse(ServerReader(dec), false, s)
  {
    assert ServerReader(dec)(first, s) == ServerReader(dec)(false, s);
  }

  /** Bytes that arrive after the connection was closed change nothing. */
  lemma FeedAfterClose(read: Reader, pieces: seq<seq<byte>>, i: nat)
    requires i <= |pieces|
    requires i < |pieces| ==> Feed(read, pieces[..i]).Closed?
    ensures Feed(read, pieces) == Feed(read, pieces[..i])
  {
    if i < |pieces| {
      var before := pieces[..|pieces| - 1];
      assert before[..i] == pieces[..i];
      FeedAfterClose(read, before, i);
    } else {
      assert pieces[..i] == pieces;
    }
  }
}
