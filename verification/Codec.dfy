/**
 The wire format of message/message.go: an 11-byte header
 (magic, type, body size, payload size), the encoded body, then the payload.
 The encoding of the body is a library matter, so a body is just bytes here.
 */
module Codec {
  import opened Prelude

  const MAGIC_A: byte := 0xA8
  const MAGIC_B: byte := 0xD5
  const HEAD_SIZE: nat := 11
  const MAX_MSG_SIZE: nat := 0x1_0000
  const MAX_PAYLOAD_SIZE: nat := 0x100_0000
  const TWO_TO_THE_32: nat := 0x1_0000_0000

  datatype MsgType =
    | CreateReqT | CreateResT | WriteReqT | WriteResT | ReadReqT | ReadResT | StatReqT
    | StatResT | ReadDirReqT | ReadDirResT | HashReqT | HashResT | AuthReqT | AuthResT

  datatype HeadError = ErrHeadSize | ErrMsgType | ErrBadProtocol

  datatype Header = Header(msgType: MsgType, msgSize: nat, payloadSize: nat)

  datatype Frame = Frame(msgType: MsgType, body: seq<byte>, payload: seq<byte>)

  function TypeByte(t: MsgType): byte {
    match t
    case CreateReqT => 0 case CreateResT => 1
    case WriteReqT => 2 case WriteResT => 3
    case ReadReqT => 4 case ReadResT => 5
    case StatReqT => 6 case StatResT => 7
    case ReadDirReqT => 8 case ReadDirResT => 9
    case HashReqT => 10 case HashResT => 11
    case AuthReqT => 12 case AuthResT => 13
  }

  function TypeOf(b: byte): (r: Option<MsgType>)
    ensures r.Some? <==> b < 14
    ensures r.Some? ==> TypeByte(r.value) == b
  {
    if b == 0 then Some(CreateReqT) else if b == 1 then Some(CreateResT)
    else if b == 2 then Some(WriteReqT) else if b == 3 then Some(WriteResT)
    else if b == 4 then Some(ReadReqT) else if b == 5 then Some(ReadResT)
    else if b == 6 then Some(StatReqT) else if b == 7 then Some(StatResT)
    else if b == 8 then Some(ReadDirReqT) else if b == 9 then Some(ReadDirResT)
    else if b == 10 then Some(HashReqT) else if b == 11 then Some(HashResT)
    else if b == 12 then Some(AuthReqT) else if b == 13 then Some(AuthResT)
    else None
  }

  /** binary.BigEndian.PutUint32 applied to uint32(n): the conversion drops the bits above 31. */
  function BigEndian32(n: nat): (b: seq<byte>)
    ensures |b| == 4
  {
    var m := n % TWO_TO_THE_32;
    [(m / 0x100_0000) as byte, (m / 0x1_0000 % 0x100) as byte, (m / 0x100 % 0x100) as byte, (m % 0x100) as byte]
  }

  /** binary.BigEndian.Uint32 */
  function Uint32(b: seq<byte>): (n: nat)
    requires |b| == 4
    ensures n < TWO_TO_THE_32
  {
    b[0] as nat * 0x100_0000 + b[1] as nat * 0x1_0000 + b[2] as nat * 0x100 + b[3] as nat
  }

  lemma Uint32OfBigEndian(n: nat)
    ensures Uint32(BigEndian32(n)) == n % TWO_TO_THE_32
  {
    var m := n % TWO_TO_THE_32;
    var c := m / 0x100;
    var b := c / 0x100;
    var a := b / 0x100;
    assert m / 0x1_0000 == b && m / 0x100_0000 == a;
    assert m == c * 0x100 + m % 0x100 && c == b * 0x100 + c % 0x100 && b == a * 0x100 + b % 0x100;
  }

  lemma LastByte(x: nat, d: byte)
    ensures (x * 0x100 + d as nat) / 0x100 == x && (x * 0x100 + d as nat) % 0x100 == d as nat
  {
  }

  lemma DivideTwice(n: nat)
    ensures n / 0x1_0000 == n / 0x100 / 0x100 && n / 0x100_0000 == n / 0x100 / 0x100 / 0x100
  {
  }

  lemma BigEndianOfUint32(b: seq<byte>)
    requires |b| == 4
    ensures BigEndian32(Uint32(b)) == b
  {
    var n := Uint32(b);
    var high := b[0] as nat * 0x100 + b[1] as nat;
    var middle := high * 0x100 + b[2] as nat;
    assert n == middle * 0x100 + b[3] as nat;
    LastByte(middle, b[3]);
    LastByte(high, b[2]);
    LastByte(b[0] as nat, b[1]);
    DivideTwice(n);
    Digits(n, b);
  }

  lemma Digits(n: nat, b: seq<byte>)
    requires |b| == 4 && n < TWO_TO_THE_32 && n / 0x100_0000 == b[0] as nat
    requires n / 0x1_0000 % 0x100 == b[1] as nat && n / 0x100 % 0x100 == b[2] as nat && n % 0x100 == b[3] as nat
    ensures BigEndian32(n) == b
  {
    assert n % TWO_TO_THE_32 == n;
  }

  predicate MagicNumberCheck(a: byte, b: byte) {
    a == MAGIC_A && b == MAGIC_B
  }

  function MsgSizeField(head: seq<byte>): nat
    requires |head| >= HEAD_SIZE
  {
    Uint32(head[3..7])
  }

  function PayloadSizeField(head: seq<byte>): nat
    requires |head| >= HEAD_SIZE
  {
    Uint32(head[7..11])
  }

  /** The header parser. It looks at the type before the sizes and never at the magic bytes. */
  function DecodePre(head: seq<byte>): Result<Header, HeadError> {
    if |head| < HEAD_SIZE then Err(ErrHeadSize)
    else match TypeOf(head[2])
      case None => Err(ErrMsgType)
      case Some(t) =>
        var msgSize := MsgSizeField(head);
        var payloadSize := PayloadSizeField(head);
        if msgSize > MAX_MSG_SIZE || payloadSize > MAX_PAYLOAD_SIZE then Err(ErrBadProtocol)
        else Ok(Header(t, msgSize, payloadSize))
  }

  /** The header EncodeMsg builds for a body of `msgSize` bytes. */
  function HeadBytes(t: MsgType, msgSize: nat, payloadSize: nat): (h: seq<byte>)
    ensures |h| == HEAD_SIZE
  {
    [MAGIC_A, MAGIC_B, TypeByte(t)] + BigEndian32(msgSize) + BigEndian32(payloadSize)
  }

  method PutUint32(a: array<byte>, at: nat, n: nat)
    requires at + 4 <= a.Length
    modifies a
    ensures a[at..at + 4] == BigEndian32(n)
    ensures forall i | 0 <= i < a.Length && !(at <= i < at + 4) :: a[i] == old(a[i])
  {
    var b := BigEndian32(n);
    a[at], a[at + 1], a[at + 2], a[at + 3] := b[0], b[1], b[2], b[3];
  }

  /** EncodeMsg: fills the header in place; the caller writes the payload separately. */
  method EncodeMsg(t: MsgType, encoded: seq<byte>, payloadSize: nat) returns (head: array<byte>, msgbuf: seq<byte>)
    ensures fresh(head) && head[..] == HeadBytes(t, |encoded|, payloadSize)
    ensures msgbuf == encoded
  {
    head := new byte[HEAD_SIZE];
    head[0] := MAGIC_A;
    head[1] := MAGIC_B;
    head[2] := TypeByte(t);
    msgbuf := encoded;
    PutUint32(head, 3, |msgbuf|);
    ghost var sizeField := head[3..7];
    PutUint32(head, 7, payloadSize);
    assert head[3..7] == sizeField;
    assert head[..] == head[..3] + head[3..7] + head[7..11];
    assert head[..3] == [MAGIC_A, MAGIC_B, TypeByte(t)];
  }

  /**
   DecodePre after EncodeMsg, for every body and payload length: the type always survives, the
   sizes survive modulo 2^32, and the header is accepted exactly when those sizes are in limits.
   */
  lemma DecodePreAfterEncodeMsg(t: MsgType, msgSize: nat, payloadSize: nat)
    ensures var m, p := msgSize % TWO_TO_THE_32, payloadSize % TWO_TO_THE_32;
            DecodePre(HeadBytes(t, msgSize, payloadSize)) ==
              (if m <= MAX_MSG_SIZE && p <= MAX_PAYLOAD_SIZE then Ok(Header(t, m, p)) else Err(ErrBadProtocol))
  {
    var h := HeadBytes(t, msgSize, payloadSize);
    assert h[3..7] == BigEndian32(msgSize);
    assert h[7..11] == BigEndian32(payloadSize);
    Uint32OfBigEndian(msgSize);
    Uint32OfBigEndian(payloadSize);
    assert TypeOf(h[2]) == Some(t);
  }

  /** The other direction: an accepted header is the one EncodeMsg writes, exactly when its magic bytes are right. */
  lemma EncodeMsgAfterDecodePre(head: seq<byte>)
    requires DecodePre(head).Ok?
    ensures var h := DecodePre(head).value;
            MagicNumberCheck(head[0], head[1]) <==> head[..HEAD_SIZE] == HeadBytes(h.msgType, h.msgSize, h.payloadSize)
  {
    var h := DecodePre(head).value;
    BigEndianOfUint32(head[3..7]);
    BigEndianOfUint32(head[7..11]);
    assert head[..HEAD_SIZE] == [head[0], head[1], head[2]] + head[3..7] + head[7..11];
    var e := HeadBytes(h.msgType, h.msgSize, h.payloadSize);
    assert e[0] == MAGIC_A && e[1] == MAGIC_B;
    if head[..HEAD_SIZE] == e {
      assert head[0] == head[..HEAD_SIZE][0] && head[1] == head[..HEAD_SIZE][1];
    }
  }

  /** The types by their numbers on the wire: each request is followed by its response. */
  lemma TypesInOrder()
    ensures var types := [CreateReqT, CreateResT, WriteReqT, WriteResT, ReadReqT, ReadResT, StatReqT, StatResT,
                          ReadDirReqT, ReadDirResT, HashReqT, HashResT, AuthReqT, AuthResT];
            forall i | 0 <= i < 14 :: TypeByte(types[i]) == i as byte && TypeOf(i as byte) == Some(types[i])
  {
  }

  /** The header byte by byte: magic, type, and the two sizes with their highest bytes first. */
  lemma HeaderLayout(t: MsgType, msgSize: nat, payloadSize: nat)
    ensures var h := HeadBytes(t, msgSize, payloadSize);
            && h[0] == 0xA8 && h[1] == 0xD5 && h[2] == TypeByte(t)
            && msgSize % 0x1_0000_0000 ==
               h[3] as nat * 0x100_0000 + h[4] as nat * 0x1_0000 + h[5] as nat * 0x100 + h[6] as nat
            && payloadSize % 0x1_0000_0000 ==
               h[7] as nat * 0x100_0000 + h[8] as nat * 0x1_0000 + h[9] as nat * 0x100 + h[10] as nat
  {
    var h := HeadBytes(t, msgSize, payloadSize);
    Uint32OfBigEndian(msgSize);
    Uint32OfBigEndian(payloadSize);
    assert h[3..7] == BigEndian32(msgSize);
    assert h[7..11] == BigEndian32(payloadSize);
  }

  /** What a header is refused for: too few bytes, then a type that is none, then sizes over the limits. */
  lemma DecodePreErrors(head: seq<byte>)
    ensures DecodePre(head) == Err(ErrHeadSize) <==> |head| < 11
    ensures DecodePre(head) == Err(ErrMsgType) <==> |head| >= 11 && head[2] > 13
    ensures |head| >= 11 ==>
              var msgSize := head[3] as nat * 0x100_0000 + head[4] as nat * 0x1_0000 + head[5] as nat * 0x100
                             + head[6] as nat;
              var payloadSize := head[7] as nat * 0x100_0000 + head[8] as nat * 0x1_0000 + head[9] as nat * 0x100
                                 + head[10] as nat;
              && (DecodePre(head) == Err(ErrBadProtocol) <==>
                    head[2] <= 13 && (msgSize > 0x1_0000 || payloadSize > 0x100_0000))
              && (DecodePre(head).Ok? ==>
                    DecodePre(head).value.msgSize == msgSize && DecodePre(head).value.payloadSize == payloadSize)
  {
    if |head| >= 11 {
      assert head[3..7][0] == head[3] && head[3..7][1] == head[4] && head[3..7][2] == head[5]
             && head[3..7][3] == head[6];
      assert head[7..11][0] == head[7] && head[7..11][1] == head[8] && head[7..11][2] == head[9]
             && head[7..11][3] == head[10];
    }
  }

  /** The frames a peer is allowed to send. */
  predicate WithinLimits(f: Frame) {
    |f.body| <= MAX_MSG_SIZE && |f.payload| <= MAX_PAYLOAD_SIZE
  }

  function EncodeFrame(f: Frame): (s: seq<byte>)
    ensures |s| == HEAD_SIZE + |f.body| + |f.payload|
  {
    HeadBytes(f.msgType, |f.body|, |f.payload|) + f.body + f.payload
  }

  function EncodeStream(fs: seq<Frame>): seq<byte> {
    if fs == [] then [] else EncodeFrame(fs[0]) + EncodeStream(fs[1..])
  }

  /** What a parser finds at the front of a buffer that starts with an encoded frame. */
  lemma FrameAtFront(f: Frame, tail: seq<byte>)
    requires WithinLimits(f)
    ensures var s := EncodeFrame(f) + tail;
            && MagicNumberCheck(s[0], s[1])
            && DecodePre(s) == Ok(Header(f.msgType, |f.body|, |f.payload|))
            && DecodePre(s[..HEAD_SIZE]) == DecodePre(s)
            && MsgSizeField(s) == |f.body| && PayloadSizeField(s) == |f.payload|
    ensures (EncodeFrame(f) + tail)[HEAD_SIZE..HEAD_SIZE + |f.body|] == f.body
    ensures (EncodeFrame(f) + tail)[HEAD_SIZE + |f.body|..HEAD_SIZE + |f.body| + |f.payload|] == f.payload
    ensures (EncodeFrame(f) + tail)[HEAD_SIZE + |f.body| + |f.payload|..] == tail
  {
    var s := EncodeFrame(f) + tail;
    var h := HeadBytes(f.msgType, |f.body|, |f.payload|);
    SlicesAtFront(h, f.body, f.payload, tail);
    HeadAtFront(f.msgType, |f.body|, |f.payload|);
    DecodePreOfPrefix(s);
    assert s[0] == s[..HEAD_SIZE][0] && s[1] == s[..HEAD_SIZE][1];
  }

  lemma SlicesAtFront(h: seq<byte>, body: seq<byte>, payload: seq<byte>, tail: seq<byte>)
    ensures var s := h + body + payload + tail;
            && s[..|h|] == h && s[|h|..|h| + |body|] == body
            && s[|h| + |body|..|h| + |body| + |payload|] == payload && s[|h| + |body| + |payload|..] == tail
  {
  }

  lemma HeadFields(t: MsgType, msgSize: nat, payloadSize: nat)
    requires msgSize <= MAX_MSG_SIZE && payloadSize <= MAX_PAYLOAD_SIZE
    ensures var h := HeadBytes(t, msgSize, payloadSize);
            && MagicNumberCheck(h[0], h[1]) && MsgSizeField(h) == msgSize && PayloadSizeField(h) == payloadSize
  {
    var h := HeadBytes(t, msgSize, payloadSize);
    assert h[0] == MAGIC_A && h[1] == MAGIC_B;
    assert h[3..7] == BigEndian32(msgSize);
    assert h[7..11] == BigEndian32(payloadSize);
    Uint32OfBigEndian(msgSize);
    Uint32OfBigEndian(payloadSize);
  }

  lemma HeadAtFront(t: MsgType, msgSize: nat, payloadSize: nat)
    requires msgSize <= MAX_MSG_SIZE && payloadSize <= MAX_PAYLOAD_SIZE
    ensures var h := HeadBytes(t, msgSize, payloadSize);
            && MagicNumberCheck(h[0], h[1])
            && DecodePre(h) == Ok(Header(t, msgSize, payloadSize))
            && MsgSizeField(h) == msgSize && PayloadSizeField(h) == payloadSize
  {
    HeadFields(t, msgSize, payloadSize);
    DecodePreAfterEncodeMsg(t, msgSize, payloadSize);
  }

  /** DecodePre depends on the first eleven bytes only. */
  lemma DecodePreOfPrefix(s: seq<byte>)
    requires |s| >= HEAD_SIZE
    ensures DecodePre(s) == DecodePre(s[..HEAD_SIZE])
    ensures MsgSizeField(s) == MsgSizeField(s[..HEAD_SIZE]) && PayloadSizeField(s) == PayloadSizeField(s[..HEAD_SIZE])
  {
    assert s[..HEAD_SIZE][3..7] == s[3..7];
    assert s[..HEAD_SIZE][7..11] == s[7..11];
  }

  /** Frames within limits are uniquely decodable: two streams of frames with the same bytes are the same frames. */
  lemma {:induction false} StreamUniquelyDecodable(fs: seq<Frame>, gs: seq<Frame>)
    requires forall f | f in fs :: WithinLimits(f)
    requires forall g | g in gs :: WithinLimits(g)
    requires EncodeStream(fs) == EncodeStream(gs)
    ensures fs == gs
  {
    if fs != [] && gs != [] {
      FrameAtFront(fs[0], EncodeStream(fs[1..]));
      FrameAtFront(gs[0], EncodeStream(gs[1..]));
      StreamUniquelyDecodable(fs[1..], gs[1..]);
      assert fs == [fs[0]] + fs[1..] && gs == [gs[0]] + gs[1..];
    }
  }
}
