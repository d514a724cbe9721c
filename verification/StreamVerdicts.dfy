/** When each end of the wire waits and when it gives a connection up, by the bytes alone. */
module StreamVerdicts {
  import opened Prelude
  import opened Codec
  import opened Framing
  import opened ServerStream
  import opened ClientStream

  /** Where a parse stops: it waits for more of what is left, or has closed because what is left was refused. */
  lemma {:induction false} ParseStops(read: Reader, first: bool, s: seq<byte>) returns (k: nat)
    requires TakesWhatItHas(read)
    ensures k <= |s|
    ensures var p := Parse(read, first, s);
            var r := read(first && p.frames == [], s[k..]);
            if p.Open? then r.Incomplete? && p.rest == s[k..] else r.Rejected?
    decreases |s|
  {
    var r := read(first, s);
    if r.Got? {
      var below := ParseStops(read, false, s[r.size..]);
      k := r.size + below;
      assert s[r.size..][below..] == s[k..];
      assert Parse(read, first, s) == Then([r.frame], Parse(read, false, s[r.size..]));
    } else {
      k := 0;
      assert s[0..] == s;
    }
  }

  /** The header of a frame within limits is there, and the frame is not. */
  ghost predicate Begun(buf: seq<byte>, f: Frame) {
    WithinLimits(f) && 11 <= |buf| < |EncodeFrame(f)| && EncodeFrame(f)[..11] == buf[..11]
  }

  predicate RightMagic(buf: seq<byte>)
    requires |buf| >= 2
  {
    buf[0] == 0xA8 && buf[1] == 0xD5
  }

  function Zeroes(n: nat): (z: seq<byte>)
    ensures |z| == n
  {
    seq(n, _ => 0)
  }

  lemma BegunIff(buf: seq<byte>)
    requires |buf| >= 11 && RightMagic(buf)
    ensures (exists f :: Begun(buf, f)) <==>
              DecodePre(buf[..11]).Ok? &&
              |buf| < 11 + DecodePre(buf[..11]).value.msgSize + DecodePre(buf[..11]).value.payloadSize
  {
    var head := buf[..11];
    if DecodePre(head).Ok? {
      var h := DecodePre(head).value;
      var f := Frame(h.msgType, Zeroes(h.msgSize), Zeroes(h.payloadSize));
      EncodeMsgAfterDecodePre(head);
      assert head[..11] == head;
      assert EncodeFrame(f)[..11] == head;
      if |buf| < 11 + h.msgSize + h.payloadSize {
        assert Begun(buf, f);
      }
    }
    if f :| Begun(buf, f) {
      FrameAtFront(f, []);
      assert EncodeFrame(f) + [] == EncodeFrame(f);
      assert EncodeFrame(f)[..HEAD_SIZE] == head;
    }
  }

  /** A whole frame within limits is there. */
  ghost predicate Present(buf: seq<byte>, f: Frame) {
    WithinLimits(f) && EncodeFrame(f) <= buf
  }

  lemma PresentHead(buf: seq<byte>, f: Frame)
    requires Present(buf, f)
    ensures |buf| >= 11 && RightMagic(buf)
    ensures DecodePre(buf[..11]) == Ok(Header(f.msgType, |f.body|, |f.payload|))
    ensures buf[11..11 + |f.body|] == f.body
    ensures buf[11 + |f.body|..11 + |f.body| + |f.payload|] == f.payload
  {
    var rest := buf[|EncodeFrame(f)|..];
    assert buf == EncodeFrame(f) + rest;
    FrameAtFront(f, rest);
  }

  /**
   The server on any buffer: wrong magic bytes are refused as soon as there are two bytes; a bad header as soon as it is
   whole; a body that does not decode as soon as its frame is whole. It waits while there are fewer bytes than a header,
   and then while the frame that the header announces is not whole.
   */
  lemma ServerVerdicts(dec: BodyDecoder, buf: seq<byte>)
    ensures ReadOne(dec, buf) == Rejected(BadMagic) <==> |buf| >= 2 && !RightMagic(buf)
    ensures forall e :: ReadOne(dec, buf) == Rejected(BadHead(e)) <==>
              |buf| >= 11 && RightMagic(buf) && DecodePre(buf[..11]) == Err(e)
    ensures ReadOne(dec, buf) == Rejected(BadBody) <==>
              exists f :: Present(buf, f) && !dec(f.msgType, f.body)
    ensures ReadOne(dec, buf) == Incomplete <==>
              |buf| < 2 || (RightMagic(buf) && |buf| < 11) || exists f :: Begun(buf, f)
  {
    if |buf| >= 11 && RightMagic(buf) {
      BegunIff(buf);
      if DecodePre(buf[..11]).Ok? {
        var h := DecodePre(buf[..11]).value;
        var n := 11 + h.msgSize + h.payloadSize;
        if |buf| >= n {
          var f := Frame(h.msgType, buf[11..11 + h.msgSize], buf[11 + h.msgSize..n]);
          EncodeMsgAfterDecodePre(buf[..11]);
          assert buf[..11][..11] == buf[..11];
          assert EncodeFrame(f) == buf[..n];
          assert Present(buf, f);
        }
      }
    }
    forall f | Begun(buf, f) ensures |buf| >= 11 && RightMagic(buf) {
      assert EncodeFrame(f)[..11][0] == buf[..11][0] && EncodeFrame(f)[..11][1] == buf[..11][1];
    }
    forall f | Present(buf, f) && !dec(f.msgType, f.body) ensures ReadOne(dec, buf) == Rejected(BadBody) {
      PresentHead(buf, f);
    }
  }

  /** The sizes that a header announces. */
  function BodySize(buf: seq<byte>): nat
    requires |buf| >= 11
  {
    buf[3] as nat * 0x100_0000 + buf[4] as nat * 0x1_0000 + buf[5] as nat * 0x100 + buf[6] as nat
  }

  function PayloadSize(buf: seq<byte>): nat
    requires |buf| >= 11
  {
    buf[7] as nat * 0x100_0000 + buf[8] as nat * 0x1_0000 + buf[9] as nat * 0x100 + buf[10] as nat
  }

  /**
   The client on the bytes of one frame. It looks at the magic bytes of the first frame only; at the sizes when the
   header is whole; at the type and the body not before the frame is. An announced empty body makes it spin.
   */
  lemma ClientVerdicts(dec: BodyDecoder, first: bool, buf: seq<byte>)
    ensures var r := ClientOne(dec, first, buf);
            var bad := first && |buf| >= 2 && !RightMagic(buf);
            && (r == Rejected(BadMagic) <==> bad)
            && (|buf| < 11 && !bad ==> r == Incomplete)
            && (|buf| >= 11 && !bad ==>
                  var m, p := BodySize(buf), PayloadSize(buf);
                  if m > 0x1_0000 || p > 0x100_0000 then r == Rejected(BadHead(ErrBadProtocol))
                  else if m == 0 then r == Rejected(EmptyBody)
                  else if |buf| < 11 + m + p then r == Incomplete
                  else if buf[2] > 13 then r == Rejected(BadHead(ErrMsgType))
                  else
                    var f := Frame(TypeOf(buf[2]).value, buf[11..11 + m], buf[11 + m..11 + m + p]);
                    r == if dec(f.msgType, f.body) then Got(f, 11 + m + p) else Rejected(BadBody))
  {
    if |buf| >= 11 {
      var head := buf[..11];
      assert head[3..7] == buf[3..7] && head[7..11] == buf[7..11];
      DecodePreErrors(head);
      DecodePreErrors(buf);
    }
  }
}
