/**
 The client's side of the wire: handleReceive in client.go, a hand-written state machine that fills a
 header buffer, then a body buffer, then a payload buffer, from reads of any length.
 */
module ClientStream {
  import opened Prelude
  import opened Codec
  import opened Framing

  /**
   What the machine makes of the bytes of the current frame. The magic bytes are checked on the first
   frame only, as soon as two bytes are there; sizes are checked when the header is complete, the type
   only when the whole frame is. On an empty body the machine loops without reading again (EmptyBody).
   */
  function ClientOne(dec: BodyDecoder, first: bool, buf: seq<byte>): (r: ReadResult)
    ensures r.Got? ==> HEAD_SIZE < r.size <= |buf|
  {
    if first && |buf| >= 2 && !MagicNumberCheck(buf[0], buf[1]) then Rejected(BadMagic)
    else if |buf| < HEAD_SIZE then Incomplete
    else
      var m, p := MsgSizeField(buf), PayloadSizeField(buf);
      if m > MAX_MSG_SIZE || p > MAX_PAYLOAD_SIZE then Rejected(BadHead(ErrBadProtocol))
      else if m == 0 then Rejected(EmptyBody)
      else if |buf| < HEAD_SIZE + m + p then Incomplete
      else match DecodePre(buf[..HEAD_SIZE])
        case Err(e) => Rejected(BadHead(e))
        case Ok(h) =>
          var body := buf[HEAD_SIZE..HEAD_SIZE + m];
          if !dec(h.msgType, body) then Rejected(BadBody)
          else Got(Frame(h.msgType, body, buf[HEAD_SIZE + m..HEAD_SIZE + m + p]), HEAD_SIZE + m + p)
  }

  function ClientReader(dec: BodyDecoder): Reader {
    (first: bool, buf: seq<byte>) => ClientOne(dec, first, buf)
  }

  lemma ClientOneStable(dec: BodyDecoder, first: bool, buf: seq<byte>, more: seq<byte>)
    requires !ClientOne(dec, first, buf).Incomplete?
    ensures ClientOne(dec, first, buf + more) == ClientOne(dec, first, buf)
  {
    if |buf| >= HEAD_SIZE {
      var all := buf + more;
      assert all[..HEAD_SIZE] == buf[..HEAD_SIZE];
      DecodePreOfPrefix(all);
      DecodePreOfPrefix(buf);
      var m, p := MsgSizeField(buf), PayloadSizeField(buf);
      if |buf| >= HEAD_SIZE + m + p {
        assert all[HEAD_SIZE..HEAD_SIZE + m] == buf[HEAD_SIZE..HEAD_SIZE + m];
        assert all[HEAD_SIZE + m..HEAD_SIZE + m + p] == buf[HEAD_SIZE + m..HEAD_SIZE + m + p];
      }
    }
  }

  lemma ClientReaderIncremental(dec: BodyDecoder)
    ensures Incremental(ClientReader(dec))
    ensures forall first: bool :: ClientReader(dec)(first, []) == Incomplete
  {
    var read := ClientReader(dec);
    forall first: bool, buf: seq<byte>, more: seq<byte> | !read(first, buf).Incomplete?
      ensures read(first, buf + more) == read(first, buf)
    {
      ClientOneStable(dec, first, buf, more);
    }
  }

  lemma ClientReadsFrame(dec: BodyDecoder, f: Frame)
    requires WithinLimits(f) && f.body != [] && dec(f.msgType, f.body)
    ensures ReadsFrame(ClientReader(dec), f)
  {
    var read, e := ClientReader(dec), EncodeFrame(f);
    forall first: bool, t: seq<byte>
      ensures read(first, e + t) == Got(f, |e|)
    {
      FrameAtFront(f, t);
    }
    FrameAtFront(f, []);
    assert e + [] == e;
    forall first: bool, n: nat | n < |e|
      ensures read(first, e[..n]) == Incomplete
    {
      if n >= HEAD_SIZE {
        assert e[..n][..HEAD_SIZE] == e[..HEAD_SIZE];
        DecodePreOfPrefix(e[..n]);
        DecodePreOfPrefix(e);
      }
    }
  }

  /** The client's whole treatment of a byte stream. */
  function ClientParse(dec: BodyDecoder, s: seq<byte>): Parsed {
    Parse(ClientReader(dec), true, s)
  }

  /** After n bytes of an encoded stream the client has delivered exactly the frames within them. */
  lemma ClientDeliversArrivedFrames(dec: BodyDecoder, fs: seq<Frame>, n: nat)
    requires forall f | f in fs :: WithinLimits(f) && f.body != [] && dec(f.msgType, f.body)
    requires n <= |EncodeStream(fs)|
    ensures var p := ClientParse(dec, EncodeStream(fs)[..n]);
            p.Open? && p.frames == fs[..Arrived(fs, n)]
  {
    forall f | f in fs ensures ReadsFrame(ClientReader(dec), f) {
      ClientReadsFrame(dec, f);
    }
    ClientReaderIncremental(dec);
    ParseOfEncodedStream(ClientReader(dec), true, fs, n);
  }

  predicate Consult(first: bool, buf: seq<byte>) {
    true
  }

  /** `read` is the client's reader; said with a trigger of its own, so that it is unfolded only on request. */
  ghost predicate IsClientReader(read: Reader, dec: BodyDecoder) {
    && Incremental(read) && read(true, []) == read(false, []) == Incomplete
    && (forall first: bool, buf: seq<byte> {:trigger Consult(first, buf)} ::
          Consult(first, buf) ==> read(first, buf) == ClientOne(dec, first, buf))
  }

  /** The reassembly machine with its buffers. */
  class Receiver {
    const dec: BodyDecoder
    ghost const read: Reader
    const bufHead: array<byte>
    var readSize: nat
    var bufMsg: array<byte>
    var payload: array<byte>
    var magicNumChecked: bool
    var returned: bool
    var delivered: seq<Frame>
    ghost var consumed: seq<byte>
    ghost var frameStart: nat

    ghost predicate BuffersValid()
      reads `readSize, `bufMsg, `payload, bufHead, bufMsg, payload
    {
      && bufHead.Length == HEAD_SIZE
      && bufHead != bufMsg && bufMsg != payload && payload != bufHead
      && (bufMsg.Length == 0 ==> readSize <= HEAD_SIZE)
      && (bufMsg.Length != 0 ==>
          && HEAD_SIZE <= readSize <= HEAD_SIZE + bufMsg.Length + payload.Length
          && bufMsg.Length == MsgSizeField(bufHead[..]) <= MAX_MSG_SIZE
          && payload.Length == PayloadSizeField(bufHead[..]) <= MAX_PAYLOAD_SIZE)
    }

    /** The bytes of the current frame, wherever they are buffered. */
    ghost function Current(): (s: seq<byte>)
      requires BuffersValid()
      reads `readSize, `bufMsg, `payload, bufHead, bufMsg, payload
      ensures |s| == readSize
    {
      if readSize <= HEAD_SIZE then bufHead[..readSize]
      else if readSize <= HEAD_SIZE + bufMsg.Length then bufHead[..] + bufMsg[..readSize - HEAD_SIZE]
      else bufHead[..] + bufMsg[..] + payload[..readSize - HEAD_SIZE - bufMsg.Length]
    }

    /** The magic bytes have been looked at as soon as there were two of them. */
    ghost predicate MagicValid()
      reads `readSize, `magicNumChecked, `delivered, bufHead
    {
      && bufHead.Length == HEAD_SIZE
      && magicNumChecked == (delivered != [] || readSize >= 2)
      && (delivered == [] && readSize >= 2 ==> MagicNumberCheck(bufHead[0], bufHead[1]))
    }

    ghost predicate Valid()
      reads this, bufHead, bufMsg, payload
    {
      && BuffersValid() && IsClientReader(read, dec)
      && (!returned ==> MagicValid() && Linked(read, consumed, frameStart, delivered, Current()))
      && (returned ==> Parse(read, true, consumed) == Closed(delivered))
    }

    /** The header announces an empty body: every further iteration allocates the same empty buffer again. */
    ghost predicate Stalled()
      reads `readSize, `bufMsg, bufHead, bufMsg
      requires bufHead.Length == HEAD_SIZE
    {
      && readSize == HEAD_SIZE && bufMsg.Length == 0
      && MsgSizeField(bufHead[..]) == 0 && PayloadSizeField(bufHead[..]) <= MAX_PAYLOAD_SIZE
    }

    /** Nothing is left to do without reading from the connection. */
    ghost predicate Settled()
      reads `readSize, `bufMsg, `payload, `returned, bufHead, bufMsg, payload
      requires bufHead.Length == HEAD_SIZE
    {
      || returned
      || Stalled()
      || readSize < HEAD_SIZE
      || (bufMsg.Length != 0 && readSize < HEAD_SIZE + bufMsg.Length + payload.Length)
    }

    ghost function State(): Parsed
      requires BuffersValid()
      reads this, bufHead, bufMsg, payload
    {
      if returned || Stalled() then Closed(delivered) else Open(delivered, Current())
    }

    constructor (dec: BodyDecoder)
      ensures Valid() && Settled() && !returned && delivered == [] && consumed == [] && this.dec == dec
      ensures read == ClientReader(dec)
      ensures fresh(bufHead) && fresh(bufMsg) && fresh(payload)
    {
      this.dec := dec;
      read := ClientReader(dec);
      bufHead := new byte[HEAD_SIZE];
      bufMsg := new byte[0];
      payload := new byte[0];
      readSize, magicNumChecked, returned, delivered := 0, false, false, [];
      consumed, frameStart := [], 0;
      new;
      ClientReaderIncremental(dec);
    }

    /** One turn of the loop. A turn that reads gets at most `limit` of the available bytes. */
    method Iterate(avail: seq<byte>, limit: nat) returns (n: nat)
      requires Valid() && !returned
      modifies this, bufHead, bufMsg, payload
      ensures Valid()
      ensures bufMsg == old(bufMsg) || fresh(bufMsg)
      ensures payload == old(payload) || fresh(payload)
      ensures n <= |avail| && n <= limit && consumed == old(consumed) + avail[..n]
      ensures old(delivered) <= delivered
      ensures !old(Settled()) ==> n == 0 && Settled()
      ensures old(Settled()) && !old(Stalled()) && avail != [] && limit > 0 ==> n > 0
      ensures old(Stalled()) ==> Stalled() && n == 0 && delivered == old(delivered)
      ensures old(Settled()) && n == 0 ==> Settled()
    {
      if bufMsg.Length != 0 && readSize == HEAD_SIZE + bufMsg.Length + payload.Length {
        n := 0;
        Deliver();
      } else {
        n := Advance(avail, limit);
      }
    }

    /** A turn that does not complete a frame, and what it adds to the bytes consumed. */
    method Advance(avail: seq<byte>, limit: nat) returns (n: nat)
      requires Valid() && !returned
      requires !(bufMsg.Length != 0 && readSize == HEAD_SIZE + bufMsg.Length + payload.Length)
      modifies `readSize, `bufMsg, `payload, `magicNumChecked, `returned, `consumed, bufHead, bufMsg, payload
      ensures Valid()
      ensures bufMsg == old(bufMsg) || fresh(bufMsg)
      ensures payload == old(payload) || fresh(payload)
      ensures n <= |avail| && n <= limit && consumed == old(consumed) + avail[..n]
      ensures !old(Settled()) ==> n == 0 && Settled()
      ensures old(Settled()) && !old(Stalled()) && avail != [] && limit > 0 ==> n > 0
      ensures old(Stalled()) ==> Stalled() && n == 0
      ensures old(Settled()) && n == 0 ==> Settled()
    {
      ghost var before := Current();
      n := Fill(avail, limit);
      LinkedExtend(read, consumed, frameStart, delivered, before, avail[..n]);
      consumed := consumed + avail[..n];
      if returned {
        LinkedParse(read, consumed, frameStart, delivered, Current());
      }
    }

    /** The turns that do not complete a frame: they read into the buffer at hand or allocate the next ones. */
    method Fill(avail: seq<byte>, limit: nat) returns (n: nat)
      requires IsClientReader(read, dec) && BuffersValid() && MagicValid() && !returned
      requires !(bufMsg.Length != 0 && readSize == HEAD_SIZE + bufMsg.Length + payload.Length)
      modifies `readSize, `bufMsg, `payload, `magicNumChecked, `returned, bufHead, bufMsg, payload
      ensures bufMsg == old(bufMsg) || fresh(bufMsg)
      ensures payload == old(payload) || fresh(payload)
      ensures n <= |avail| && n <= limit
      ensures BuffersValid() && Current() == old(Current()) + avail[..n]
      ensures if returned then read(delivered == [], Current()).Rejected? else MagicValid()
      ensures !old(Settled()) ==> n == 0 && Settled()
      ensures old(Settled()) && !old(Stalled()) && avail != [] && limit > 0 ==> n > 0
      ensures old(Stalled()) ==> Stalled() && n == 0
      ensures old(Settled()) && n == 0 ==> Settled()
    {
      n := 0;
      if readSize < HEAD_SIZE {
        n := ReadHead(avail, limit);
      } else if bufMsg.Length == 0 {
        Allocate();
      } else if readSize < HEAD_SIZE + bufMsg.Length {
        n := ReadBody(avail, limit);
      } else {
        n := ReadPayload(avail, limit);
      }
    }

    method ReadHead(avail: seq<byte>, limit: nat) returns (n: nat)
      requires IsClientReader(read, dec)
      requires BuffersValid() && MagicValid() && !returned && readSize < HEAD_SIZE
      modifies `readSize, `magicNumChecked, `returned, bufHead
      ensures n <= |avail| && n <= limit && (avail != [] && limit > 0 ==> n > 0)
      ensures BuffersValid() && Current() == old(Current()) + avail[..n] && readSize == old(readSize) + n
      ensures if returned then read(delivered == [], Current()) == Rejected(BadMagic) else MagicValid()
    {
      n := Read(bufHead, readSize, avail, limit);
      readSize := readSize + n;
      if readSize > 1 && !magicNumChecked {
        if !MagicNumberCheck(bufHead[0], bufHead[1]) {
          returned := true;
          assert Consult(delivered == [], Current());
        } else {
          magicNumChecked := true;
        }
      }
    }

    method Allocate()
      requires BuffersValid() && !returned && readSize == HEAD_SIZE && bufMsg.Length == 0
      requires MagicValid() && IsClientReader(read, dec)
      modifies `bufMsg, `payload, `returned
      ensures BuffersValid() && Settled() && MagicValid() && Current() == old(Current())
      ensures bufMsg == old(bufMsg) || fresh(bufMsg)
      ensures payload == old(payload) || fresh(payload)
      ensures returned ==> read(delivered == [], Current()).Rejected?
      ensures old(Stalled()) ==> Stalled() && !returned
    {
      var msgSize := MsgSizeField(bufHead[..]);
      var payloadSize := PayloadSizeField(bufHead[..]);
      assert Current() == bufHead[..];
      if msgSize > MAX_MSG_SIZE || payloadSize > MAX_PAYLOAD_SIZE {
        returned := true;
        assert Consult(delivered == [], Current());
        return;
      }
      bufMsg := new byte[msgSize];
      payload := new byte[payloadSize];
    }

    method ReadBody(avail: seq<byte>, limit: nat) returns (n: nat)
      requires BuffersValid() && HEAD_SIZE <= readSize < HEAD_SIZE + bufMsg.Length
      modifies `readSize, bufMsg
      ensures n <= |avail| && n <= limit && (avail != [] && limit > 0 ==> n > 0)
      ensures BuffersValid() && Current() == old(Current()) + avail[..n]
      ensures HEAD_SIZE <= readSize == old(readSize) + n
    {
      ghost var before := Current();
      assert before == bufHead[..] + bufMsg[..readSize - HEAD_SIZE];
      n := Read(bufMsg, readSize - HEAD_SIZE, avail, limit);
      readSize := readSize + n;
      assert Current() == bufHead[..] + bufMsg[..readSize - HEAD_SIZE];
    }

    method ReadPayload(avail: seq<byte>, limit: nat) returns (n: nat)
      requires BuffersValid() && bufMsg.Length != 0
      requires HEAD_SIZE + bufMsg.Length <= readSize < HEAD_SIZE + bufMsg.Length + payload.Length
      modifies `readSize, payload
      ensures n <= |avail| && n <= limit && (avail != [] && limit > 0 ==> n > 0)
      ensures BuffersValid() && Current() == old(Current()) + avail[..n]
      ensures HEAD_SIZE <= readSize == old(readSize) + n
    {
      ghost var before := Current();
      assert before == bufHead[..] + bufMsg[..] + payload[..readSize - HEAD_SIZE - bufMsg.Length];
      n := Read(payload, readSize - HEAD_SIZE - bufMsg.Length, avail, limit);
      readSize := readSize + n;
      assert Current() == bufHead[..] + bufMsg[..] + payload[..readSize - HEAD_SIZE - bufMsg.Length];
    }

    method Deliver()
      requires Valid() && !returned && bufMsg.Length != 0
      requires readSize == HEAD_SIZE + bufMsg.Length + payload.Length
      modifies `readSize, `bufMsg, `payload, `returned, `delivered, `frameStart
      ensures Valid() && Settled()
      ensures bufMsg == old(bufMsg) || fresh(bufMsg)
      ensures payload == old(payload) || fresh(payload)
      ensures old(delivered) <= delivered
    {
      CurrentIsWhole();
      LinkedParse(read, consumed, frameStart, delivered, Current());
      var pre := DecodePre(bufHead[..]);
      if pre.Err? {
        returned := true;
        return;
      }
      if !dec(pre.value.msgType, bufMsg[..]) {
        returned := true;
        return;
      }
      delivered := delivered + [Frame(pre.value.msgType, bufMsg[..], payload[..])];
      readSize := 0;
      bufMsg := new byte[0];
      payload := new byte[0];
      frameStart := |consumed|;
    }

    /** What the reader says of a completely buffered frame. */
    lemma CurrentIsWhole()
      requires IsClientReader(read, dec) && BuffersValid() && MagicValid() && bufMsg.Length != 0
      requires readSize == HEAD_SIZE + bufMsg.Length + payload.Length
      ensures read(delivered == [], Current()) ==
              (match DecodePre(bufHead[..])
               case Err(e) => Rejected(BadHead(e))
               case Ok(h) =>
                 if dec(h.msgType, bufMsg[..]) then Got(Frame(h.msgType, bufMsg[..], payload[..]), readSize)
                 else Rejected(BadBody))
    {
      var cur := Current();
      assert cur == bufHead[..] + bufMsg[..] + payload[..];
      assert cur[..HEAD_SIZE] == bufHead[..];
      assert cur[HEAD_SIZE..HEAD_SIZE + bufMsg.Length] == bufMsg[..];
      assert cur[HEAD_SIZE + bufMsg.Length..HEAD_SIZE + bufMsg.Length + payload.Length] == payload[..];
      DecodePreOfPrefix(cur);
      assert cur[0] == bufHead[0] && cur[1] == bufHead[1];
      assert Consult(delivered == [], cur);
    }

    /** Mid-frame, the reader is waiting; on an empty body it is done for. */
    lemma SettledVerdict()
      requires IsClientReader(read, dec) && BuffersValid() && MagicValid() && Settled() && !returned
      ensures var r := read(delivered == [], Current());
              if Stalled() then r == Rejected(EmptyBody) else r == Incomplete
    {
      var cur := Current();
      if readSize >= HEAD_SIZE {
        assert cur[..HEAD_SIZE] == bufHead[..];
        DecodePreOfPrefix(cur);
      }
      if readSize >= 2 {
        assert cur[0] == bufHead[0] && cur[1] == bufHead[1];
      }
      assert Consult(delivered == [], cur);
    }

    /**
     Whenever the machine is about to read (or has returned, or spins), it has delivered exactly the
     frames of the bytes consumed so far, and holds exactly the bytes of the frame under way.
     */
    lemma SettledStateIsParse()
      requires Valid() && Settled()
      ensures State() == Parse(read, true, consumed)
    {
      if !returned {
        SettledVerdict();
        LinkedParse(read, consumed, frameStart, delivered, Current());
      }
    }

    /**
     The machine over a stream, with the lengths of successive reads chosen by the network. If every read can get
     something, it reads the stream to its end, unless it closes or spins first: two turns of the loop are enough
     for each byte.
     */
    method HandleReceive(stream: seq<byte>, limits: seq<nat>) returns (n: nat)
      requires Valid() && Settled() && !returned && consumed == [] && delivered == []
      modifies this, bufHead, bufMsg, payload
      ensures Valid() && n <= |stream| && consumed == stream[..n]
      ensures Settled() ==> State() == ClientParse(dec, stream[..n])
      ensures (forall i | 0 <= i < |limits| :: limits[i] > 0) && |limits| >= 2 * |stream| + 2 ==>
                Settled() && (n == |stream| || State().Closed?)
    {
      n := 0;
      var i := 0;
      while i < |limits| && !returned
        invariant i <= |limits|
        invariant Valid() && n <= |stream| && consumed == stream[..n]
        invariant fresh(bufMsg) || bufMsg == old(bufMsg)
        invariant fresh(payload) || payload == old(payload)
        invariant (forall j | 0 <= j < |limits| :: limits[j] > 0) ==>
          || returned || Stalled() || (n == |stream| && Settled())
          || i <= 2 * n + if Settled() then 1 else 0
      {
        var k := Iterate(stream[n..], limits[i]);
        assert stream[..n] + stream[n..][..k] == stream[..n + k];
        n := n + k;
        i := i + 1;
      }
      if Settled() {
        SettledStateIsParse();
        SameReaderSameParse(read, dec, true, consumed);
      }
    }

    /** So on an encoded stream, cut off anywhere, exactly the frames that arrived are delivered. */
    method ReceiveFrames(ghost fs: seq<Frame>, stream: seq<byte>, limits: seq<nat>)
      requires Valid() && Settled() && !returned && consumed == [] && delivered == []
      requires forall f | f in fs :: WithinLimits(f) && f.body != [] && dec(f.msgType, f.body)
      requires stream <= EncodeStream(fs)
      requires (forall i | 0 <= i < |limits| :: limits[i] > 0) && |limits| >= 2 * |stream| + 2
      modifies this, bufHead, bufMsg, payload
      ensures Valid() && delivered == fs[..Arrived(fs, |stream|)]
      ensures !returned && consumed == stream
    {
      var n := HandleReceive(stream, limits);
      ClientDeliversArrivedFrames(dec, fs, n);
      assert EncodeStream(fs)[..n] == stream[..n];
    }
  }

  lemma {:induction false} SameReaderSameParse(read: Reader, dec: BodyDecoder, first: bool, s: seq<byte>)
    requires IsClientReader(read, dec)
    ensures Parse(read, first, s) == Parse(ClientReader(dec), first, s)
    decreases |s|
  {
    assert Consult(first, s);
    var r := read(first, s);
    assert r == ClientReader(dec)(first, s);
    if r.Got? && 0 < r.size <= |s| {
      SameReaderSameParse(read, dec, false, s[r.size..]);
    }
  }

  /** conn.Read into buf from position `at`: some of the available bytes, at least one if there is any. */
  method Read(buf: array<byte>, at: nat, avail: seq<byte>, limit: nat) returns (n: nat)
    requires at < buf.Length
    modifies buf
    ensures n <= |avail| && n <= limit && at + n <= buf.Length
    ensures avail != [] && limit > 0 ==> n > 0
    ensures buf[..at + n] == old(buf[..at]) + avail[..n]
    ensures forall i | at + n <= i < buf.Length :: buf[i] == old(buf[i])
  {
    n := if |avail| < limit then |avail| else limit;
    if buf.Length - at < n {
      n := buf.Length - at;
    }
    forall i | 0 <= i < n {
      buf[at + i] := avail[i];
    }
  }
}
