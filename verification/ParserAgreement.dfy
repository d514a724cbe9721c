/**
 The two parsers of the protocol were written independently: ReadMessage asks for the magic bytes of
 every frame, handleReceive for those of the first frame only. This module says exactly how far they agree.
 */
module ParserAgreement {
  import opened Prelude
  import opened Codec
  import opened Framing
  import opened ServerStream
  import opened ClientStream

  /** A CBOR item takes at least one byte (section 3.1 of RFC 8949), so the empty body never decodes. */
  ghost predicate RejectsEmptyBody(dec: BodyDecoder) {
    forall t: MsgType :: !dec(t, [])
  }

  /** How many of the frames the client delivers, counted from the first, have headers with the magic bytes. */
  function MagicRun(dec: BodyDecoder, first: bool, s: seq<byte>): nat
    decreases |s|
  {
    match ClientReader(dec)(first, s)
    case Got(f, n) =>
      if 0 < n <= |s| && |s| >= 2 && MagicNumberCheck(s[0], s[1]) then 1 + MagicRun(dec, false, s[n..]) else 0
    case _ => 0
  }

  /** One frame: the readers differ only in the magic bytes, and in when they give up. */
  lemma ReadersAgreeOnOneFrame(dec: BodyDecoder, first: bool, s: seq<byte>)
    requires RejectsEmptyBody(dec)
    ensures var c, v := ClientReader(dec)(first, s), ServerReader(dec)(first, s);
            && (c.Got? ==> 0 < c.size <= |s| && |s| >= 2)
            && (c.Got? ==> v == if MagicNumberCheck(s[0], s[1]) then c else Rejected(BadMagic))
            && (!c.Got? ==> !v.Got?)
  {
    if |s| >= HEAD_SIZE {
      DecodePreOfPrefix(s);
      if ReadOne(dec, s).Got? {
        assert s[HEAD_SIZE..HEAD_SIZE] == [];
      }
    }
  }

  /**
   On any byte stream whatever, the server dispatches exactly the longest prefix of the client's frames
   whose headers all carry the magic bytes.
   */
  lemma {:induction false} ServerFramesAreMagicRun(dec: BodyDecoder, first: bool, s: seq<byte>)
    requires RejectsEmptyBody(dec)
    ensures var c, v := Parse(ClientReader(dec), first, s), Parse(ServerReader(dec), first, s);
            MagicRun(dec, first, s) <= |c.frames| && v.frames == c.frames[..MagicRun(dec, first, s)]
    decreases |s|
  {
    ReadersAgreeOnOneFrame(dec, first, s);
    var client, server := ClientReader(dec), ServerReader(dec);
    var r := client(first, s);
    if r.Got? && MagicNumberCheck(s[0], s[1]) {
      ServerFramesAreMagicRun(dec, false, s[r.size..]);
      MagicRunStep(dec, first, s, r.frame, r.size);
      ParseStep(client, first, s, r.frame, r.size);
      ParseStep(server, first, s, r.frame, r.size);
      var c, k := Parse(client, false, s[r.size..]).frames, MagicRun(dec, false, s[r.size..]);
      assert ([r.frame] + c)[..k + 1] == [r.frame] + c[..k];
    }
  }

  lemma ParseStep(read: Reader, first: bool, s: seq<byte>, f: Frame, n: nat)
    requires read(first, s) == Got(f, n) && 0 < n <= |s|
    ensures Parse(read, first, s).frames == [f] + Parse(read, false, s[n..]).frames
  {
  }

  lemma MagicRunStep(dec: BodyDecoder, first: bool, s: seq<byte>, f: Frame, n: nat)
    requires ClientReader(dec)(first, s) == Got(f, n) && 0 < n <= |s|
    requires |s| >= 2 && MagicNumberCheck(s[0], s[1])
    ensures MagicRun(dec, first, s) == 1 + MagicRun(dec, false, s[n..])
  {
  }

  /** So the two sides see the same frames exactly when every header the client reaches carries the magic bytes. */
  lemma ParsersAgreeIffAllMagic(dec: BodyDecoder, s: seq<byte>)
    requires RejectsEmptyBody(dec)
    ensures ServerParse(dec, s).frames <= ClientParse(dec, s).frames
    ensures ServerParse(dec, s).frames == ClientParse(dec, s).frames <==>
            MagicRun(dec, true, s) == |ClientParse(dec, s).frames|
  {
    ServerFramesAreMagicRun(dec, true, s);
    var c := ClientParse(dec, s).frames;
    assert c[..|c|] == c;
  }

  /** The disagreement is real: a second frame without magic bytes reaches the client's caller but not the server's. */
  lemma SecondFrameWithoutMagic(dec: BodyDecoder, f: Frame)
    requires WithinLimits(f) && f.body != [] && dec(f.msgType, f.body) && RejectsEmptyBody(dec)
    ensures var s := EncodeFrame(f) + EncodeFrame(f)[0 := 0];
            ClientParse(dec, s).frames == [f, f] && ServerParse(dec, s).frames == [f]
  {
    var e := EncodeFrame(f);
    var bad := e[0 := 0];
    var s := e + bad;
    var client := ClientReader(dec);
    FrameAtFront(f, bad);
    ClientReadsFrame(dec, f);
    assert client(true, e + bad) == Got(f, |e|);
    ParseStep(client, true, s, f, |e|);
    assert s[|e|..] == bad;
    BadMagicStillRead(dec, f);
    ParseStep(client, false, bad, f, |e|);
    assert bad[|e|..] == [];
    ClientReaderIncremental(dec);
    assert client(false, []) == Incomplete;
    assert Parse(client, false, []).frames == [];
    assert [f] + ([f] + []) == [f, f];
    ServerFramesAreMagicRun(dec, true, s);
    MagicRunStep(dec, true, s, f, |e|);
    assert !MagicNumberCheck(bad[0], bad[1]);
    assert MagicRun(dec, false, bad) == 0;
  }

  lemma BadMagicStillRead(dec: BodyDecoder, f: Frame)
    requires WithinLimits(f) && f.body != [] && dec(f.msgType, f.body)
    ensures ClientReader(dec)(false, EncodeFrame(f)[0 := 0]) == Got(f, |EncodeFrame(f)|)
  {
    var e := EncodeFrame(f);
    var bad := e[0 := 0];
    FrameAtFront(f, []);
    assert e + [] == e;
    assert bad[3..7] == e[3..7] && bad[7..11] == e[7..11];
    assert bad[..HEAD_SIZE][3..7] == e[3..7] && bad[..HEAD_SIZE][7..11] == e[7..11];
    assert bad[2] == e[2];
    assert DecodePre(bad[..HEAD_SIZE]) == DecodePre(e);
    assert bad[HEAD_SIZE..HEAD_SIZE + |f.body|] == f.body;
    assert bad[HEAD_SIZE + |f.body|..|e|] == f.payload;
  }
}
