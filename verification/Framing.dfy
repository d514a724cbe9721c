/**
 Incremental frame readers in general. The server's ReadMessage and the client's handleReceive both
 look at the bytes at hand and either wait, give the connection up, or take one frame off the front.
 What follows holds of any such reader whose verdicts are not changed by later bytes.
 */
module Framing {
  import opened Prelude
  import opened Codec

  /** msg.Decode: whether the library decodes a body of this type. */
  type BodyDecoder = (MsgType, seq<byte>) -> bool

  datatype ReadError = BadMagic | BadHead(error: HeadError) | BadBody | EmptyBody

  /** Wait for more bytes, give up, or a frame and the number of bytes it took. */
  datatype ReadResult = Incomplete | Rejected(error: ReadError) | Got(frame: Frame, size: nat)

  /** A reader is told whether it stands at the first frame of its connection. */
  type Reader = (bool, seq<byte>) -> ReadResult

  ghost predicate TakesWhatItHas(read: Reader) {
    forall first: bool, buf: seq<byte> :: read(first, buf).Got? ==> 0 < read(first, buf).size <= |buf|
  }

  ghost predicate Stable(read: Reader) {
    forall first: bool, buf: seq<byte>, more: seq<byte> ::
      !read(first, buf).Incomplete? ==> read(first, buf + more) == read(first, buf)
  }

  lemma StableAt(read: Reader, first: bool, buf: seq<byte>, more: seq<byte>)
    requires Stable(read) && !read(first, buf).Incomplete?
    ensures read(first, buf + more) == read(first, buf)
  {
  }

  ghost predicate Incremental(read: Reader) {
    TakesWhatItHas(read) && Stable(read)
  }

  /** A connection: the frames delivered so far and, while it is open, the bytes not yet taken. */
  datatype Parsed = Open(frames: seq<Frame>, rest: seq<byte>) | Closed(frames: seq<Frame>)

  function Then(fs: seq<Frame>, p: Parsed): Parsed {
    match p
    case Open(gs, rest) => Open(fs + gs, rest)
    case Closed(gs) => Closed(fs + gs)
  }

  lemma ThenThen(fs: seq<Frame>, gs: seq<Frame>, p: Parsed)
    ensures Then(fs, Then(gs, p)) == Then(fs + gs, p)
    ensures Then([], p) == p
  {
    assert fs + (gs + p.frames) == fs + gs + p.frames;
    assert [] + p.frames == p.frames;
  }

  /** Everything a reader does with a byte stream. */
  function Parse(read: Reader, first: bool, s: seq<byte>): (p: Parsed)
    decreases |s|
  {
    match read(first, s)
    case Incomplete => Open([], s)
    case Rejected(_) => Closed([])
    case Got(f, n) => if 0 < n <= |s| then Then([f], Parse(read, false, s[n..])) else Closed([])
  }

  /** Whether the next frame is still the first one. */
  predicate StillFirst(first: bool, p: Parsed) {
    first && p.frames == []
  }

  /** Parsing resumes from the bytes not yet taken: what came before is never looked at again. */
  lemma {:induction false} ParseExtend(read: Reader, first: bool, s: seq<byte>, t: seq<byte>)
    requires Incremental(read)
    ensures var p := Parse(read, first, s);
            Parse(read, first, s + t) ==
              if p.Open? then Then(p.frames, Parse(read, StillFirst(first, p), p.rest + t)) else p
    decreases |s|
  {
    match read(first, s) {
      case Incomplete =>
        ThenThen([], [], Parse(read, first, s + t));
      case Rejected(_) =>
        StableAt(read, first, s, t);
      case Got(f, n) =>
        StableAt(read, first, s, t);
        assert (s + t)[n..] == s[n..] + t;
        var p := Parse(read, false, s[n..]);
        ParseExtend(read, false, s[n..], t);
        if p.Open? {
          ThenThen([f], p.frames, Parse(read, false, p.rest + t));
        }
    }
  }

  /** A reader that takes nothing but encoded frames. */
  ghost predicate TakesEncodings(read: Reader, allowed: Frame -> bool) {
    forall first: bool, buf: seq<byte> ::
      var r := read(first, buf);
      r.Got? && 0 < r.size <= |buf| ==> allowed(r.frame) && EncodeFrame(r.frame) == buf[..r.size]
  }

  /**
   Only whole frames leave the stream: what was delivered, encoded again, followed by the bytes not
   yet taken, is the stream.
   */
  lemma {:induction false} ParseConservesBytes(read: Reader, allowed: Frame -> bool, first: bool, s: seq<byte>)
    requires TakesEncodings(read, allowed)
    ensures var p := Parse(read, first, s);
            && EncodeStream(p.frames) <= s
            && (forall f | f in p.frames :: allowed(f))
            && (p.Open? ==> s == EncodeStream(p.frames) + p.rest)
    decreases |s|
  {
    var r := read(first, s);
    if r.Got? && 0 < r.size <= |s| {
      ParseConservesBytes(read, allowed, false, s[r.size..]);
      var p := Parse(read, false, s[r.size..]);
      assert Parse(read, first, s) == Then([r.frame], p);
      FrameThenStream(r.frame, p.frames, s[..r.size], s[r.size..], if p.Open? then p.rest else []);
      assert s == s[..r.size] + s[r.size..];
    }
  }

  lemma FrameThenStream(f: Frame, fs: seq<Frame>, e: seq<byte>, s: seq<byte>, rest: seq<byte>)
    requires e == EncodeFrame(f) && EncodeStream(fs) <= s
    ensures EncodeStream([f] + fs) <= e + s
    ensures s == EncodeStream(fs) + rest ==> e + s == EncodeStream([f] + fs) + rest
  {
    assert ([f] + fs)[1..] == fs;
    assert EncodeStream([f] + fs) == e + EncodeStream(fs);
  }

  function Flatten(pieces: seq<seq<byte>>): seq<byte> {
    if pieces == [] then [] else Flatten(pieces[..|pieces| - 1]) + pieces[|pieces| - 1]
  }

  /** A reader fed piece by piece, as the network delivers them. */
  function Feed(read: Reader, pieces: seq<seq<byte>>): Parsed {
    if pieces == [] then Open([], [])
    else
      var p := Feed(read, pieces[..|pieces| - 1]);
      if p.Open? then Then(p.frames, Parse(read, StillFirst(true, p), p.rest + pieces[|pieces| - 1])) else p
  }

  /** Fragmentation independence: only the bytes matter, not how they were cut into pieces. */
  lemma {:induction false} FragmentationIndependence(read: Reader, pieces: seq<seq<byte>>)
    requires Incremental(read) && read(true, []) == Incomplete
    ensures Feed(read, pieces) == Parse(read, true, Flatten(pieces))
  {
    if pieces != [] {
      var before := pieces[..|pieces| - 1];
      FragmentationIndependence(read, before);
      ParseExtend(read, true, Flatten(before), pieces[|pieces| - 1]);
    }
  }

  /** `cur` are the bytes of `consumed` from frameStart on, and the bytes before it parse to `delivered`. */
  ghost predicate Linked(read: Reader, consumed: seq<byte>, frameStart: nat, delivered: seq<Frame>, cur: seq<byte>) {
    && frameStart <= |consumed|
    && Parse(read, true, consumed[..frameStart]) == Open(delivered, [])
    && consumed[frameStart..] == cur
  }

  lemma LinkedExtend(read: Reader, consumed: seq<byte>, frameStart: nat, delivered: seq<Frame>, cur: seq<byte>,
                     more: seq<byte>)
    requires Linked(read, consumed, frameStart, delivered, cur)
    ensures Linked(read, consumed + more, frameStart, delivered, cur + more)
  {
    assert (consumed + more)[..frameStart] == consumed[..frameStart];
    assert (consumed + more)[frameStart..] == cur + more;
  }

  /** What the reader says about the current frame decides what becomes of the whole stream so far. */
  lemma LinkedParse(read: Reader, consumed: seq<byte>, frameStart: nat, delivered: seq<Frame>, cur: seq<byte>)
    requires Incremental(read) && read(false, []) == Incomplete
    requires Linked(read, consumed, frameStart, delivered, cur)
    ensures var r := read(delivered == [], cur);
            && (r.Incomplete? ==> Parse(read, true, consumed) == Open(delivered, cur))
            && (r.Rejected? ==> Parse(read, true, consumed) == Closed(delivered))
            && (r.Got? && r.size == |cur| ==> Linked(read, consumed, |consumed|, delivered + [r.frame], []))
  {
    ParseExtend(read, true, consumed[..frameStart], cur);
    assert [] + cur == cur;
    assert consumed == consumed[..frameStart] + cur;
    assert delivered + [] == delivered;
    var r := read(delivered == [], cur);
    if r.Got? && r.size == |cur| {
      assert cur[|cur|..] == [];
      assert Parse(read, false, []) == Open([], []);
      assert Parse(read, delivered == [], cur) == Open([r.frame], []);
      assert consumed[..|consumed|] == consumed;
    }
  }

  /** The frames of fs whose encodings lie entirely within the first n bytes of the stream. */
  function Arrived(fs: seq<Frame>, n: nat): (k: nat)
    ensures k <= |fs|
  {
    if fs == [] || n < |EncodeFrame(fs[0])| then 0 else 1 + Arrived(fs[1..], n - |EncodeFrame(fs[0])|)
  }

  lemma {:induction false} ArrivedIsWhatFits(fs: seq<Frame>, n: nat)
    ensures |EncodeStream(fs[..Arrived(fs, n)])| <= n
    ensures Arrived(fs, n) < |fs| ==> n < |EncodeStream(fs[..Arrived(fs, n) + 1])|
  {
    if fs != [] && n >= |EncodeFrame(fs[0])| {
      var m := n - |EncodeFrame(fs[0])|;
      ArrivedIsWhatFits(fs[1..], m);
      var k := Arrived(fs[1..], m);
      assert fs[..k + 1][1..] == fs[1..][..k];
      if k < |fs| - 1 {
        assert fs[..k + 2][1..] == fs[1..][..k + 1];
      }
    } else if fs != [] {
      assert fs[..1][1..] == [];
      assert EncodeStream(fs[..1]) == EncodeFrame(fs[0]) + EncodeStream([]);
    }
  }

  /** A reader that takes encoded frames whole and waits inside them. */
  ghost predicate ReadsFrame(read: Reader, f: Frame) {
    && (forall first: bool, t: seq<byte> :: read(first, EncodeFrame(f) + t) == Got(f, |EncodeFrame(f)|))
    && (forall first: bool, n: nat :: n < |EncodeFrame(f)| ==> read(first, EncodeFrame(f)[..n]) == Incomplete)
  }

  /** After n bytes of an encoded stream, exactly the frames lying within those n bytes are delivered. */
  lemma {:induction false} ParseOfEncodedStream(read: Reader, first: bool, fs: seq<Frame>, n: nat)
    requires forall f | f in fs :: ReadsFrame(read, f)
    requires forall b: bool :: read(b, []) == Incomplete
    requires n <= |EncodeStream(fs)|
    ensures var p := Parse(read, first, EncodeStream(fs)[..n]);
            p.Open? && p.frames == fs[..Arrived(fs, n)]
  {
    var s := EncodeStream(fs);
    if fs != [] {
      var e := EncodeFrame(fs[0]);
      assert ReadsFrame(read, fs[0]);
      if n < |e| {
        assert s[..n] == e[..n];
      } else {
        var m := n - |e|;
        assert s[..n] == e + EncodeStream(fs[1..])[..m];
        assert s[..n][|e|..] == EncodeStream(fs[1..])[..m];
        ParseOfEncodedStream(read, false, fs[1..], m);
        assert fs[..Arrived(fs, n)] == [fs[0]] + fs[1..][..Arrived(fs[1..], m)];
      }
    }
  }
}
