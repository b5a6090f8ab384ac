/** The frames of src/core/gateway.cpp: a 4-byte length and that many bytes, the first four of
    which name the message type. Both ends use the same byte order, written here with the low
    byte first. */
module Framing {
  import opened Basics

  function Encode(n: U32): (bs: Bytes)
    ensures |bs| == 4
  {
    [n % 256, n / 256 % 256, n / 65536 % 256, n / 16777216]
  }

  function Decode(bs: Bytes): (n: U32)
    requires |bs| == 4
  {
    (bs[0] as int) + 256 * (bs[1] as int) + 65536 * (bs[2] as int) + 16777216 * (bs[3] as int)
  }

  lemma DecodeEncode(n: U32)
    ensures Decode(Encode(n)) == n
  {
    var b, c, d := n / 256, n / 65536, n / 16777216;
    assert n == 256 * b + n % 256 && b == 256 * c + b % 256 && c == 256 * d + c % 256;
  }

  /** What DoWrite puts on the wire: static_cast<uint32_t> truncates the size. */
  function Frame(msg: Bytes): Bytes {
    Encode(|msg| % TWO_TO_32) + msg
  }

  /** A frame is four bytes of length, modulo 2^32, and the message as it is. */
  lemma FrameHolds(msg: Bytes)
    ensures |Frame(msg)| == 4 + |msg| && Frame(msg)[4..] == msg && Decode(Frame(msg)[..4]) == |msg| % TWO_TO_32
  {
    DecodeEncode(|msg| % TWO_TO_32);
    assert Frame(msg)[..4] == Encode(|msg| % TWO_TO_32);
  }

  function Frames(msgs: seq<Bytes>): Bytes {
    if msgs == [] then [] else Frame(msgs[0]) + Frames(msgs[1..])
  }

  /** One-shot parser of a whole stream: the messages, and whether a length below 4 closed it. */
  function Parse(stream: Bytes): (r: (seq<Bytes>, bool))
    ensures forall i :: 0 <= i < |r.0| ==> |r.0[i]| >= 4
  {
    if |stream| < 4 then ([], false)
    else
      var len := Decode(stream[..4]);
      if len < 4 then ([], true)
      else if |stream| < 4 + len then ([], false)
      else
        var (rest, closed) := Parse(stream[4 + len..]);
        ([stream[4..4 + len]] + rest, closed)
  }

  // The read loop, byte by byte as the bytes arrive.

  datatype Phase =
    | Header(got: Bytes)              // DoReadHeader has |got| < 4 bytes
    | Body(len: U32, got: Bytes)      // DoReadBody has |got| < len bytes
    | Closed

  datatype Reader = Reader(phase: Phase, delivered: seq<Bytes>)

  const NEW_READER := Reader(Header([]), [])

  ghost predicate ReaderInv(r: Reader) {
    match r.phase
    case Header(got) => |got| < 4
    case Body(len, got) => 4 <= len && |got| < len
    case Closed => true
  }

  /** The header handler. */
  function HeaderDone(r: Reader, header: Bytes): Reader
    requires |header| == 4
  {
    if Decode(header) < 4 then r.(phase := Closed) else r.(phase := Body(Decode(header), []))
  }

  /** The body handler. */
  function BodyDone(r: Reader, body: Bytes): Reader {
    Reader(Header([]), r.delivered + [body])
  }

  function FeedByte(r: Reader, b: Byte): (r': Reader)
    requires ReaderInv(r)
    ensures ReaderInv(r')
  {
    match r.phase
    case Header(got) =>
      if |got| == 3 then HeaderDone(r, got + [b]) else r.(phase := Header(got + [b]))
    case Body(len, got) =>
      if |got| + 1 == len then BodyDone(r, got + [b]) else r.(phase := Body(len, got + [b]))
    case Closed => r
  }

  function Feed(r: Reader, bs: Bytes): (r': Reader)
    requires ReaderInv(r)
    ensures ReaderInv(r')
    decreases |bs|
  {
    if bs == [] then r else Feed(FeedByte(r, bs[0]), bs[1..])
  }

  function FeedChunks(r: Reader, chunks: seq<Bytes>): (r': Reader)
    requires ReaderInv(r)
    ensures ReaderInv(r')
    decreases |chunks|
  {
    if chunks == [] then r else FeedChunks(Feed(r, chunks[0]), chunks[1..])
  }

  function Concat(chunks: seq<Bytes>): Bytes {
    if chunks == [] then [] else chunks[0] + Concat(chunks[1..])
  }

  lemma {:induction false} FeedAppend(r: Reader, xs: Bytes, ys: Bytes)
    requires ReaderInv(r)
    ensures Feed(r, xs + ys) == Feed(Feed(r, xs), ys)
    decreases |xs|
  {
    if xs == [] {
      assert xs + ys == ys;
    } else {
      assert (xs + ys)[0] == xs[0] && (xs + ys)[1..] == xs[1..] + ys;
      FeedAppend(FeedByte(r, xs[0]), xs[1..], ys);
    }
  }

  lemma {:induction false} FeedChunksIsFeed(r: Reader, chunks: seq<Bytes>)
    requires ReaderInv(r)
    ensures FeedChunks(r, chunks) == Feed(r, Concat(chunks))
    decreases |chunks|
  {
    if chunks != [] {
      FeedAppend(r, chunks[0], Concat(chunks[1..]));
      FeedChunksIsFeed(Feed(r, chunks[0]), chunks[1..]);
    }
  }

  /** A run of header bytes. */
  lemma {:induction false} FeedHeader(r: Reader, bs: Bytes)
    requires r.phase.Header? && |r.phase.got| + |bs| <= 4 && |r.phase.got| < 4
    ensures Feed(r, bs) == if |r.phase.got| + |bs| < 4 then r.(phase := Header(r.phase.got + bs))
                           else HeaderDone(r, r.phase.got + bs)
    decreases |bs|
  {
    var got := r.phase.got;
    if bs == [] {
      assert got + bs == got;
    } else {
      assert got + bs == got + [bs[0]] + bs[1..];
      if |got| == 3 {
        assert bs[1..] == [] && got + bs == got + [bs[0]];
      } else {
        FeedHeader(r.(phase := Header(got + [bs[0]])), bs[1..]);
      }
    }
  }

  /** A run of body bytes. */
  lemma {:induction false} FeedBody(r: Reader, bs: Bytes)
    requires r.phase.Body? && 4 <= r.phase.len && |r.phase.got| < r.phase.len && |r.phase.got| + |bs| <= r.phase.len
    ensures Feed(r, bs) == if |r.phase.got| + |bs| < r.phase.len then r.(phase := Body(r.phase.len, r.phase.got + bs))
                           else BodyDone(r, r.phase.got + bs)
    decreases |bs|
  {
    var len, got := r.phase.len, r.phase.got;
    if bs == [] {
      assert got + bs == got;
    } else {
      assert got + bs == got + [bs[0]] + bs[1..];
      if |got| + 1 == len {
        assert bs[1..] == [] && got + bs == got + [bs[0]];
      } else {
        FeedBody(r.(phase := Body(len, got + [bs[0]])), bs[1..]);
      }
    }
  }

  lemma {:induction false} FeedClosed(r: Reader, bs: Bytes)
    requires r.phase.Closed?
    ensures Feed(r, bs) == r
    decreases |bs|
  {
    if bs != [] {
      FeedClosed(r, bs[1..]);
    }
  }

  /** From the start of a frame the read loop delivers what the one-shot parser finds. */
  lemma {:induction false} FeedIsParse(r: Reader, stream: Bytes)
    requires r.phase == Header([])
    ensures Feed(r, stream).delivered == r.delivered + Parse(stream).0
    ensures Feed(r, stream).phase.Closed? <==> Parse(stream).1
    decreases |stream|
  {
    if |stream| < 4 {
      FeedHeader(r, stream);
    } else {
      var header, rest := stream[..4], stream[4..];
      assert stream == header + rest;
      FeedAppend(r, header, rest);
      FeedHeader(r, header);
      assert [] + header == header;
      var h, len := HeaderDone(r, header), Decode(header);
      if len < 4 {
        FeedClosed(h, rest);
      } else if |rest| < len {
        FeedBody(h, rest);
      } else {
        var body, more := rest[..len], rest[len..];
        assert rest == body + more;
        FeedAppend(h, body, more);
        FeedBody(h, body);
        assert [] + body == body;
        assert stream[4..4 + len] == body && stream[4 + len..] == more;
        FeedIsParse(BodyDone(h, body), more);
        assert r.delivered + [body] + Parse(more).0 == r.delivered + ([body] + Parse(more).0);
      }
    }
  }

  /** However the stream is split into chunks, the read loop delivers the messages of the
      one-shot parser, and it is closed exactly if the parser met a length below 4. */
  lemma ChunksDoNotMatter(chunks: seq<Bytes>)
    ensures var r := FeedChunks(NEW_READER, chunks);
            r.delivered == Parse(Concat(chunks)).0 && (r.phase.Closed? <==> Parse(Concat(chunks)).1)
  {
    FeedChunksIsFeed(NEW_READER, chunks);
    FeedIsParse(NEW_READER, Concat(chunks));
    assert [] + Parse(Concat(chunks)).0 == Parse(Concat(chunks)).0;
  }

  /** Once closed, nothing that arrives is delivered any more. */
  lemma ClosedForGood(chunks: seq<Bytes>, more: Bytes)
    requires FeedChunks(NEW_READER, chunks).phase.Closed?
    ensures Feed(FeedChunks(NEW_READER, chunks), more) == FeedChunks(NEW_READER, chunks)
  {
    FeedClosed(FeedChunks(NEW_READER, chunks), more);
  }

  // Round trip.

  predicate Sendable(msg: Bytes) {
    4 <= |msg| < TWO_TO_32
  }

  /** One frame at the front of a stream. */
  lemma ParseFrame(msg: Bytes, rest: Bytes)
    ensures var len := |msg| % TWO_TO_32;
            Parse(Frame(msg) + rest) ==
            if len < 4 then ([], true)
            else (([msg[..len]] + Parse(msg[len..] + rest).0, Parse(msg[len..] + rest).1))
  {
    var len, stream := |msg| % TWO_TO_32, Frame(msg) + rest;
    DecodeEncode(len);
    assert stream[..4] == Encode(len);
    if len >= 4 {
      assert stream[4..4 + len] == msg[..len];
      assert stream[4 + len..] == msg[len..] + rest;
    }
  }

  lemma ParseSendable(msg: Bytes, rest: Bytes)
    requires Sendable(msg)
    ensures Parse(Frame(msg) + rest) == ([msg] + Parse(rest).0, Parse(rest).1)
  {
    hide Parse, Frame;
    ParseFrame(msg, rest);
    assert |msg| % TWO_TO_32 == |msg|;
    assert msg[..|msg|] == msg && msg[|msg|..] + rest == rest;
  }

  lemma {:induction false} FramesReadBack(msgs: seq<Bytes>)
    requires forall m :: m in msgs ==> Sendable(m)
    ensures Parse(Frames(msgs)) == (msgs, false)
  {
    if msgs != [] {
      ParseSendable(msgs[0], Frames(msgs[1..]));
      FramesReadBack(msgs[1..]);
      assert msgs == [msgs[0]] + msgs[1..];
    }
  }

  /** The frames of a list of messages are read back as exactly that list if and only if every
      message has at least 4 and less than 2^32 bytes. */
  lemma {:induction false} ReadBackIff(msgs: seq<Bytes>)
    ensures Parse(Frames(msgs)).0 == msgs <==> forall m :: m in msgs ==> Sendable(m)
  {
    if msgs != [] {
      var m, rest := msgs[0], Frames(msgs[1..]);
      assert msgs == [m] + msgs[1..];
      if Sendable(m) {
        ParseSendable(m, rest);
        ReadBackIff(msgs[1..]);
        assert [m] + Parse(rest).0 == msgs <==> Parse(rest).0 == msgs[1..];
      } else {
        ParseFrame(m, rest);
      }
    }
  }

  /** A beginning of the frames is read back as a beginning of the list. */
  lemma {:induction false} BeginningReadBack(wire: Bytes, msgs: seq<Bytes>)
    requires wire <= Frames(msgs) && forall m :: m in msgs ==> Sendable(m)
    ensures Parse(wire).0 <= msgs && !Parse(wire).1
    decreases |msgs|
  {
    if msgs != [] && |wire| >= 4 {
      var m, rest := msgs[0], Frames(msgs[1..]);
      assert m in msgs;
      if |wire| >= 4 + |m| {
        var more := wire[4 + |m|..];
        assert wire == Frame(m) + more && more <= rest by { SplitFrame(wire, m, rest); }
        ParseSendable(m, more);
        BeginningReadBack(more, msgs[1..]);
      } else {
        ParsePartOfFrame(wire, m, rest);
      }
    }
  }

  lemma SplitFrame(wire: Bytes, msg: Bytes, rest: Bytes)
    requires wire <= Frame(msg) + rest && |wire| >= 4 + |msg|
    ensures wire == Frame(msg) + wire[4 + |msg|..] && wire[4 + |msg|..] <= rest
  {
    var all := Frame(msg) + rest;
    assert |Frame(msg)| == 4 + |msg|;
    assert wire == all[..|wire|];
    assert wire[..4 + |msg|] == all[..4 + |msg|] == Frame(msg);
    assert wire[4 + |msg|..] == rest[..|wire| - 4 - |msg|];
  }

  lemma ParsePartOfFrame(wire: Bytes, msg: Bytes, rest: Bytes)
    requires Sendable(msg) && wire <= Frame(msg) + rest && 4 <= |wire| < 4 + |msg|
    ensures Parse(wire) == ([], false)
  {
    assert |msg| % TWO_TO_32 == |msg|;
    DecodeEncode(|msg|);
    var all := Frame(msg) + rest;
    assert wire == all[..|wire|];
    assert wire[..4] == all[..4] == Encode(|msg|);
  }
}
