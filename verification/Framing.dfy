/** Length-prefixed frames on a byte stream: how `CallMethod` and `doneCallback` build them and how
    `onMessage` takes them apart again, whatever chunks the bytes arrive in (src/RPCChannel.cc). */
module Framing {
  import opened Wire
  import opened Messages

  const LEN_FIELD := 4
  const MAX_FRAME := 64 * 1024 * 1024

  type Header = Message

  function BigEndian(v: nat): (s: bytes)
    requires v < TWO32
    ensures |s| == LEN_FIELD
  {
    [v / 0x100_0000, v / 0x1_0000 % 256, v / 256 % 256, v % 256]
  }

  function FromBigEndian(s: bytes): (v: nat)
    requires |s| == LEN_FIELD
    ensures v < TWO32
  {
    var a: int, b: int, c: int := s[0], s[1], s[2];
    a * 0x100_0000 + b * 0x1_0000 + c * 256 + s[3]
  }

  lemma BigEndianInverse(v: nat)
    requires v < TWO32
    ensures FromBigEndian(BigEndian(v)) == v
  {
    assert v == v / 256 * 256 + v % 256;
    assert v / 256 == v / 0x1_0000 * 256 + v / 256 % 256;
    assert v / 0x1_0000 == v / 0x100_0000 * 256 + v / 0x1_0000 % 256;
  }

  /** A frame: the length, which counts its own four bytes and is cut to 32 bits, then the header. */
  function Frame(h: Header): bytes {
    var raw := Serialize(HEADER, h);
    BigEndian((|raw| + LEN_FIELD) % TWO32) + raw
  }

  function Frames(hs: seq<Header>): bytes {
    if hs == [] then [] else Frame(hs[0]) + Frames(hs[1..])
  }

  /** A header that its sender can serialize. */
  ghost predicate HeaderOk(h: Header) { WellFormed(HEADER, h) && Serializable(HEADER, h) }

  /** A header that a receiver will accept: the encoded size plus the length field is at most 64 MiB. */
  ghost predicate Fits(h: Header) {
    WellFormed(HEADER, h) && |Serialize(HEADER, h)| + LEN_FIELD <= MAX_FRAME
  }

  ghost predicate AllFit(hs: seq<Header>) {
    forall h :: h in hs ==> Fits(h)
  }

  // ---------------------------------------------------------------- the receiving side

  /** One turn of the loop of `onMessage` on the unread bytes. */
  datatype Taken =
    | NeedMore                              // half a frame: wait
    | BadLength                             // shut the connection down, consume nothing
    | Unparsed(rest: bytes)                 // frame consumed, its header does not parse
    | Got(header: Header, rest: bytes)

  function TakeFrame(buf: bytes): (t: Taken)
    ensures t.Unparsed? || t.Got? ==> |t.rest| + LEN_FIELD <= |buf| && t.rest == buf[|buf| - |t.rest|..]
  {
    if |buf| < LEN_FIELD then NeedMore
    else
      var len := FromBigEndian(buf[..LEN_FIELD]);
      if len < LEN_FIELD || len > MAX_FRAME then BadLength
      else if |buf| < len then NeedMore
      else
        match Parse(HEADER, buf[LEN_FIELD..len])
        case None => Unparsed(buf[len..])
        case Some(h) => Got(h, buf[len..])
  }

  datatype Outcome = Waiting | Shutdown | GaveUp
  datatype Arrival = Arrival(headers: seq<Header>, rest: bytes, outcome: Outcome) {
    /** This activation seen from its start, when `before` was dispatched first. */
    function Behind(before: seq<Header>): Arrival { Arrival(before + headers, rest, outcome) }
  }

  /** One activation of `onMessage`: dispatches headers until it must wait, shuts the connection
      down, or gives up on a header that does not parse. */
  function OnMessage(buf: bytes): Arrival
    decreases |buf|
  {
    match TakeFrame(buf)
    case NeedMore => Arrival([], buf, Waiting)
    case BadLength => Arrival([], buf, Shutdown)
    case Unparsed(rest) => Arrival([], rest, GaveUp)
    case Got(h, rest) => var a := OnMessage(rest); Arrival([h] + a.headers, a.rest, a.outcome)
  }

  /** Reference decoder of a whole byte stream: skips frames whose header does not parse and stops
      at an invalid length. */
  function Decode(s: bytes): seq<Header>
    decreases |s|
  {
    match TakeFrame(s)
    case NeedMore => []
    case BadLength => []
    case Unparsed(rest) => Decode(rest)
    case Got(h, rest) => [h] + Decode(rest)
  }

  /** A connection's receiving end: unread bytes, and all headers dispatched so far. */
  datatype Receiver = Receiver(unread: bytes, dispatched: seq<Header>)

  function Arrive(r: Receiver, chunk: bytes): Receiver {
    var a := OnMessage(r.unread + chunk);
    Receiver(a.rest, r.dispatched + a.headers)
  }

  function Feed(r: Receiver, chunks: seq<bytes>): Receiver
    decreases |chunks|
  {
    if chunks == [] then r else Feed(Arrive(r, chunks[0]), chunks[1..])
  }

  function Concat(chunks: seq<bytes>): bytes {
    if chunks == [] then [] else chunks[0] + Concat(chunks[1..])
  }

  const FRESH := Receiver([], [])

  // ---------------------------------------------------------------- single frames

  lemma FrameParts(h: Header, rest: bytes)
    requires Serializable(HEADER, h)
    ensures var s := Frame(h) + rest;
            var len := |Serialize(HEADER, h)| + LEN_FIELD;
            && len <= |s| && FromBigEndian(s[..LEN_FIELD]) == len
            && s[LEN_FIELD..len] == Serialize(HEADER, h) && s[len..] == rest
  {
    hide Serialize, BigEndian, FromBigEndian;
    var raw := Serialize(HEADER, h);
    var len := |raw| + LEN_FIELD;
    BigEndianInverse(len);
    assert (Frame(h) + rest)[..LEN_FIELD] == BigEndian(len);
  }

  /** What the sender framed is what the receiver takes, and nothing of what follows is touched. */
  lemma FrameTaken(h: Header, rest: bytes)
    requires Fits(h)
    ensures TakeFrame(Frame(h) + rest) == Got(h, rest)
  {
    FrameParts(h, rest);
    RoundTrip(HEADER, h);
  }

  /** Fits is exact: a longer frame is never taken, and it blocks the stream for good. */
  lemma FrameTakenOnlyIfFits(h: Header, rest: bytes)
    requires HeaderOk(h)
    ensures TakeFrame(Frame(h) + rest) == Got(h, rest) <==> Fits(h)
    ensures !Fits(h) ==> TakeFrame(Frame(h) + rest) == BadLength && Decode(Frame(h) + rest) == []
  {
    if Fits(h) {
      FrameTaken(h, rest);
    } else {
      FrameParts(h, rest);
    }
  }

  /** A decision taken on some bytes is not changed by later bytes. */
  lemma TakeFrameExtend(buf: bytes, more: bytes)
    requires TakeFrame(buf) != NeedMore
    ensures TakeFrame(buf + more)
         == match TakeFrame(buf)
            case Unparsed(rest) => Unparsed(rest + more)
            case Got(h, rest) => Got(h, rest + more)
            case t => t
  {
    assert (buf + more)[..LEN_FIELD] == buf[..LEN_FIELD];
    var len := FromBigEndian(buf[..LEN_FIELD]);
    if LEN_FIELD <= len <= MAX_FRAME {
      assert (buf + more)[LEN_FIELD..len] == buf[LEN_FIELD..len];
      assert (buf + more)[len..] == buf[len..] + more;
    }
  }

  // ---------------------------------------------------------------- chunking

  /** One activation splits the reference decoding at the point where it stops reading. */
  lemma {:induction false} OnMessageDecodes(buf: bytes, more: bytes)
    ensures var a := OnMessage(buf); Decode(buf + more) == a.headers + Decode(a.rest + more)
    decreases |buf|
  {
    hide TakeFrame;
    var t := TakeFrame(buf);
    if t.Got? {
      TakeFrameExtend(buf, more);
      OnMessageDecodes(t.rest, more);
      var a := OnMessage(t.rest);
      Assoc([t.header], a.headers, Decode(a.rest + more));
    } else {
      if t != NeedMore { TakeFrameExtend(buf, more); }
      assert [] + Decode(OnMessage(buf).rest + more) == Decode(OnMessage(buf).rest + more);
    }
  }

  /** Bytes are only ever consumed from the front. */
  lemma {:induction false} OnMessageKeepsSuffix(buf: bytes)
    ensures var a := OnMessage(buf); |a.rest| <= |buf| && a.rest == buf[|buf| - |a.rest|..]
    decreases |buf|
  {
    var t := TakeFrame(buf);
    if t.Got? {
      OnMessageKeepsSuffix(t.rest);
    }
  }

  /** Reassembly does not depend on chunking: for every split of the stream into arrivals, the
      headers dispatched and the reference decoding of the unread rest make up the reference
      decoding of the whole stream. */
  lemma {:induction false} FeedDecodes(r: Receiver, chunks: seq<bytes>, more: bytes)
    ensures var r' := Feed(r, chunks);
            r'.dispatched + Decode(r'.unread + more) == r.dispatched + Decode(r.unread + Concat(chunks) + more)
    decreases |chunks|
  {
    if chunks == [] {
      assert r.unread + Concat(chunks) == r.unread;
    } else {
      var x, tail := r.unread + chunks[0], Concat(chunks[1..]);
      var a := OnMessage(x);
      FeedDecodes(Arrive(r, chunks[0]), chunks[1..], more);
      OnMessageDecodes(x, tail + more);
      Assoc(r.dispatched, a.headers, Decode(a.rest + (tail + more)));
      Assoc(a.rest, tail, more);
      Assoc(x, tail, more);
      Assoc(r.unread, chunks[0], tail);
    }
  }

  lemma Assoc<T>(a: seq<T>, b: seq<T>, c: seq<T>)
    ensures a + b + c == a + (b + c)
  {}

  /** Consumed bytes followed by the unread bytes are the bytes received. */
  lemma {:induction false} FeedConsumesPrefix(r: Receiver, chunks: seq<bytes>)
    ensures var all := r.unread + Concat(chunks); var u := Feed(r, chunks).unread;
            |u| <= |all| && u == all[|all| - |u|..]
    decreases |chunks|
  {
    hide OnMessage;
    if chunks == [] {
      assert r.unread + [] == r.unread;
    } else {
      var x, tail := r.unread + chunks[0], Concat(chunks[1..]);
      var r' := Arrive(r, chunks[0]);
      OnMessageKeepsSuffix(x);
      FeedConsumesPrefix(r', chunks[1..]);
      Assoc(r.unread, chunks[0], tail);
      SuffixOfSuffix(x, r'.unread, tail, Feed(r', chunks[1..]).unread);
    }
  }

  lemma SuffixOfSuffix(x: bytes, a: bytes, tail: bytes, u: bytes)
    requires |a| <= |x| && a == x[|x| - |a|..]
    requires |u| <= |a + tail| && u == (a + tail)[|a + tail| - |u|..]
    ensures |u| <= |x + tail| && u == (x + tail)[|x + tail| - |u|..]
  {
    assert a + tail == (x + tail)[|x| - |a|..];
  }

  /** When does every chunking dispatch the whole reference decoding? The receiver returns from
      `onMessage` at a header that does not parse and looks at what is behind it only when more bytes
      arrive, so no decodable frame may follow the first such header. */
  predicate NothingBehindBadHeader(s: bytes)
    decreases |s|
  {
    match TakeFrame(s)
    case Unparsed(rest) => Decode(rest) == []
    case Got(_, rest) => NothingBehindBadHeader(rest)
    case _ => true
  }

  lemma {:induction false} OnMessageKeepsClean(buf: bytes, more: bytes)
    requires NothingBehindBadHeader(buf + more)
    ensures NothingBehindBadHeader(OnMessage(buf).rest + more)
    decreases |buf|
  {
    if TakeFrame(buf).Got? {
      TakeFrameExtend(buf, more);
      OnMessageKeepsClean(TakeFrame(buf).rest, more);
    } else if TakeFrame(buf).Unparsed? {
      TakeFrameExtend(buf, more);
      EmptyIsClean(TakeFrame(buf).rest + more);
    }
  }

  lemma {:induction false} EmptyIsClean(s: bytes)
    requires Decode(s) == []
    ensures NothingBehindBadHeader(s)
  {}

  lemma {:induction false} OnMessageExhausts(buf: bytes)
    ensures NothingBehindBadHeader(buf) <==> Decode(OnMessage(buf).rest) == []
    decreases |buf|
  {
    if TakeFrame(buf).Got? {
      OnMessageExhausts(TakeFrame(buf).rest);
    }
  }

  lemma {:induction false} CleanFeedExhausts(r: Receiver, chunks: seq<bytes>)
    requires NothingBehindBadHeader(r.unread + Concat(chunks)) && Decode(r.unread) == []
    ensures Decode(Feed(r, chunks).unread) == []
    decreases |chunks|
  {
    if chunks != [] {
      var x, rest := r.unread + chunks[0], Concat(chunks[1..]);
      assert r.unread + Concat(chunks) == x + rest;
      OnMessageKeepsClean(x, rest);
      CleanPrefix(x, rest);
      OnMessageExhausts(x);
      CleanFeedExhausts(Arrive(r, chunks[0]), chunks[1..]);
    }
  }

  lemma {:induction false} CleanPrefix(s: bytes, more: bytes)
    requires NothingBehindBadHeader(s + more)
    ensures NothingBehindBadHeader(s)
    decreases |s|
  {
    if TakeFrame(s).Got? {
      TakeFrameExtend(s, more);
      CleanPrefix(TakeFrame(s).rest, more);
    } else if TakeFrame(s).Unparsed? {
      TakeFrameExtend(s, more);
      OnMessageDecodes(TakeFrame(s).rest, []);
      DecodePrefix(TakeFrame(s).rest, more);
    }
  }

  lemma {:induction false} DecodePrefix(s: bytes, more: bytes)
    ensures Decode(s) <= Decode(s + more)
    decreases |s|
  {
    if TakeFrame(s) != NeedMore {
      TakeFrameExtend(s, more);
      if TakeFrame(s).Got? || TakeFrame(s).Unparsed? { DecodePrefix(TakeFrame(s).rest, more); }
    }
  }

  lemma CleanStreamDispatched(s: bytes, chunks: seq<bytes>)
    requires NothingBehindBadHeader(s) && Concat(chunks) == s
    ensures Feed(FRESH, chunks).dispatched == Decode(s)
  {
    assert [] + Concat(chunks) == s && s + [] == s;
    CleanFeedExhausts(FRESH, chunks);
    FeedDecodes(FRESH, chunks, []);
    var r := Feed(FRESH, chunks);
    assert r.unread + [] == r.unread;
    assert r.dispatched + [] == r.dispatched;
  }

  lemma OneChunk(s: bytes)
    ensures Concat([s]) == s && Feed(FRESH, [s]) == Receiver(OnMessage(s).rest, OnMessage(s).headers)
  {
    assert [s][1..] == [] && s + [] == s && [] + s == s;
    assert [] + OnMessage(s).headers == OnMessage(s).headers;
    assert Feed(FRESH, [s]) == Feed(Arrive(FRESH, s), []);
  }

  lemma OneChunkDispatched(s: bytes)
    requires OnMessage(s).headers == Decode(s)
    ensures NothingBehindBadHeader(s)
  {
    OnMessageDecodes(s, []);
    var a := OnMessage(s);
    assert s + [] == s && a.rest + [] == a.rest;
    OnMessageExhausts(s);
  }

  /** Exact condition for timely dispatch: every chunking of s dispatches all that s decodes to,
      if and only if no decodable frame lies behind a header that does not parse. */
  lemma TimelyDispatch(s: bytes)
    ensures (forall chunks :: Concat(chunks) == s ==> Feed(FRESH, chunks).dispatched == Decode(s))
       <==> NothingBehindBadHeader(s)
  {
    if NothingBehindBadHeader(s) {
      forall chunks | Concat(chunks) == s ensures Feed(FRESH, chunks).dispatched == Decode(s) {
        CleanStreamDispatched(s, chunks);
      }
    } else if OnMessage(s).headers == Decode(s) {
      OneChunkDispatched(s);
    } else {
      OneChunk(s);
    }
  }

  const EMPTY_HEADER_FRAME: bytes := [0, 0, 0, 4]
  const TAG_ZERO_FRAME: bytes := [0, 0, 0, 5, 0]

  lemma EmptyHeaderTaken()
    ensures TakeFrame(EMPTY_HEADER_FRAME) == Got(Default(HEADER), [])
  {
    var s := EMPTY_HEADER_FRAME;
    assert s[..4] == [0, 0, 0, 4] && s[4..4] == [] && s[4..] == [];
    assert FromBigEndian([0, 0, 0, 4]) == 4;
    assert ParseRecords([]) == Some([]);
    assert Fold(HEADER, Default(HEADER), []) == Some(Default(HEADER));
  }

  lemma TagZeroRefused()
    ensures TakeFrame(TAG_ZERO_FRAME) == Unparsed([])
  {
    var s := TAG_ZERO_FRAME;
    assert s[..4] == [0, 0, 0, 5] && s[4..5] == [0] && s[5..] == [];
    assert FromBigEndian([0, 0, 0, 5]) == 5;
    assert ReadTag([0]) == Some((0, 1));
    assert ReadRecord([0]) == None;
    assert ParseRecords([0]) == None;
  }

  lemma NothingTaken()
    ensures TakeFrame([]) == NeedMore
  {}

  /** The condition can fail: a frame that carries the invalid tag 0, then an empty but valid frame,
      in one arrival. The second frame stays in the buffer until more bytes come. */
  lemma StuckFrame()
    ensures Decode(TAG_ZERO_FRAME + EMPTY_HEADER_FRAME) == [Default(HEADER)]
    ensures Feed(FRESH, [TAG_ZERO_FRAME + EMPTY_HEADER_FRAME]) == Receiver(EMPTY_HEADER_FRAME, [])
  {
    hide TakeFrame, FromBigEndian;
    TagZeroRefused();
    EmptyHeaderTaken();
    TakeFrameExtend(TAG_ZERO_FRAME, EMPTY_HEADER_FRAME);
    assert [] + EMPTY_HEADER_FRAME == EMPTY_HEADER_FRAME;
    NothingTaken();
    assert Decode(EMPTY_HEADER_FRAME) == [Default(HEADER)] + Decode([]);
    OneChunk(TAG_ZERO_FRAME + EMPTY_HEADER_FRAME);
  }

  // ---------------------------------------------------------------- streams of frames

  lemma {:induction false} FramesConcat(a: seq<Header>, b: seq<Header>)
    ensures Frames(a + b) == Frames(a) + Frames(b)
  {
    if a == [] {
      assert a + b == b;
    } else {
      assert (a + b)[1..] == a[1..] + b;
      FramesConcat(a[1..], b);
    }
  }

  lemma FramesAppend(hs: seq<Header>, h: Header)
    ensures Frames(hs + [h]) == Frames(hs) + Frame(h)
  {
    FramesConcat(hs, [h]);
    assert [h][1..] == [];
    assert Frames([h]) == Frame(h) + [];
  }

  /** Decoding a stream of frames gives back the headers, in order. */
  lemma {:induction false} FramesDecode(hs: seq<Header>)
    requires AllFit(hs)
    ensures Decode(Frames(hs)) == hs
  {
    hide TakeFrame, Frame, Fits;
    if hs != [] {
      FrameTaken(hs[0], Frames(hs[1..]));
      FramesDecode(hs[1..]);
    }
  }

  /** What may stand behind the frames that a receiver can take: nothing, or a frame too long for it. */
  ghost predicate Jam(tail: bytes) { tail == [] || TakeFrame(tail) == BadLength }

  /** The stream leads to an invalid length. */
  predicate Blocked(s: bytes)
    decreases |s|
  {
    match TakeFrame(s)
    case NeedMore => false
    case BadLength => true
    case Unparsed(rest) => Blocked(rest)
    case Got(_, rest) => Blocked(rest)
  }

  /** An invalid length blocks a stream for good: whatever follows, nothing more is ever decoded. */
  lemma {:induction false} BlockedForGood(s: bytes, more: bytes)
    requires Blocked(s)
    ensures Blocked(s + more) && Decode(s + more) == Decode(s)
    decreases |s|
  {
    hide TakeFrame;
    TakeFrameExtend(s, more);
    if TakeFrame(s).Got? || TakeFrame(s).Unparsed? { BlockedForGood(TakeFrame(s).rest, more); }
  }

  lemma {:induction false} JammedDecode(hs: seq<Header>, tail: bytes)
    requires AllFit(hs) && Jam(tail)
    ensures Decode(Frames(hs) + tail) == hs
    ensures Blocked(Frames(hs) + tail) <==> tail != []
    decreases |hs|
  {
    hide TakeFrame, Frame, Fits;
    if hs == [] {
      assert Frames(hs) + tail == tail;
      NothingTaken();
    } else {
      Assoc(Frame(hs[0]), Frames(hs[1..]), tail);
      FrameTaken(hs[0], Frames(hs[1..]) + tail);
      JammedDecode(hs[1..], tail);
    }
  }

  /** Sending one more header: it can be taken if it fits and nothing before it blocks the stream. */
  lemma JammedSend(hs: seq<Header>, tail: bytes, h: Header)
    requires Jam(tail) && HeaderOk(h)
    ensures tail == [] && Fits(h) ==> Frames(hs) + tail + Frame(h) == Frames(hs + [h])
    ensures tail != [] || !Fits(h) ==> Jam(tail + Frame(h)) && tail + Frame(h) != []
  {
    hide TakeFrame, Frame, Fits, Frames, HeaderOk;
    if tail != [] {
      TakeFrameExtend(tail, Frame(h));
    } else if Fits(h) {
      FramesAppend(hs, h);
      assert Frames(hs) + [] == Frames(hs);
    } else {
      OversizedJams(h);
      assert [] + Frame(h) == Frame(h);
    }
  }

  lemma OversizedJams(h: Header)
    requires HeaderOk(h) && !Fits(h)
    ensures TakeFrame(Frame(h)) == BadLength && Frame(h) != []
  {
    hide TakeFrame, Frame, Fits, HeaderOk;
    FrameTakenOnlyIfFits(h, []);
    assert Frame(h) + [] == Frame(h);
    NothingTaken();
  }

  /** The receiver of such a stream, at any point of its arrival: what it takes is the next frame; it
      never sees a header that does not parse, and an invalid length only where the stream is jammed. */
  lemma TakeFromJammed(buf: bytes, more: bytes, hs: seq<Header>, tail: bytes)
    requires buf + more == Frames(hs) + tail && AllFit(hs) && Jam(tail)
    ensures match TakeFrame(buf)
            case NeedMore => true
            case BadLength => hs == [] && tail != []
            case Unparsed(_) => false
            case Got(h, rest) => hs != [] && h == hs[0] && rest + more == Frames(hs[1..]) + tail
    ensures more == [] && hs != [] ==> TakeFrame(buf).Got?
  {
    hide TakeFrame, Frame, Fits;
    if hs == [] {
      assert Frames(hs) + tail == tail;
      if tail == [] {
        assert buf == [];
        NothingTaken();
      }
    } else {
      Assoc(Frame(hs[0]), Frames(hs[1..]), tail);
      FrameTaken(hs[0], Frames(hs[1..]) + tail);
      if more == [] { assert buf + more == buf; }
    }
    if TakeFrame(buf) != NeedMore { TakeFrameExtend(buf, more); }
  }

  /** With nothing oversized sent, the receiver never sees an invalid length either. */
  lemma TakeFromFrames(buf: bytes, more: bytes, hs: seq<Header>)
    requires buf + more == Frames(hs) && AllFit(hs)
    ensures var t := TakeFrame(buf);
            || t.NeedMore?
            || (t.Got? && hs != [] && t.header == hs[0] && t.rest + more == Frames(hs[1..]))
    ensures more == [] && hs != [] ==> TakeFrame(buf).Got?
  {
    hide TakeFrame, Frames, Fits;
    assert Frames(hs) + [] == Frames(hs);
    if hs != [] { assert Frames(hs[1..]) + [] == Frames(hs[1..]); }
    TakeFromJammed(buf, more, hs, []);
  }

  lemma {:induction false} FramesClean(hs: seq<Header>)
    requires AllFit(hs)
    ensures NothingBehindBadHeader(Frames(hs))
  {
    if hs != [] {
      FrameTaken(hs[0], Frames(hs[1..]));
      FramesClean(hs[1..]);
    }
  }

  lemma {:induction false} OnMessageFrames(buf: bytes, more: bytes, hs: seq<Header>) returns (k: nat)
    requires buf + more == Frames(hs) && AllFit(hs)
    ensures k <= |hs| && OnMessage(buf).rest + more == Frames(hs[k..])
    ensures more == [] ==> OnMessage(buf).rest == []
    decreases |hs|
  {
    TakeFromFrames(buf, more, hs);
    if TakeFrame(buf).Got? {
      k := OnMessageFrames(TakeFrame(buf).rest, more, hs[1..]);
      assert hs[1..][k..] == hs[k + 1..];
      k := k + 1;
    } else {
      k := 0;
      assert hs[0..] == hs;
      if more == [] { assert hs == [] && Frames(hs) == []; }
    }
  }

  lemma {:induction false} FeedFramesEmpties(r: Receiver, chunks: seq<bytes>, hs: seq<Header>)
    requires r.unread + Concat(chunks) == Frames(hs) && AllFit(hs)
    requires chunks == [] ==> r.unread == []
    ensures Feed(r, chunks).unread == []
    decreases |chunks|
  {
    hide OnMessage, Frames, Fits;
    if chunks != [] {
      var x, rest := r.unread + chunks[0], Concat(chunks[1..]);
      Assoc(r.unread, chunks[0], rest);
      var k := OnMessageFrames(x, rest, hs);
      FeedFramesEmpties(Arrive(r, chunks[0]), chunks[1..], hs[k..]);
    }
  }

  /** Frame-stream round trip: whatever list of headers was framed and however its bytes arrive,
      exactly that list is dispatched, in order, and the buffer ends empty. */
  lemma FrameStreamRoundTrip(hs: seq<Header>, chunks: seq<bytes>)
    requires AllFit(hs) && Concat(chunks) == Frames(hs)
    ensures Feed(FRESH, chunks) == Receiver([], hs)
  {
    FramesClean(hs);
    FramesDecode(hs);
    TimelyDispatch(Frames(hs));
    assert [] + Concat(chunks) == Frames(hs);
    FeedFramesEmpties(FRESH, chunks, hs);
  }
}
