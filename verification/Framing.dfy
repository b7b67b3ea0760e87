/** Message framing (crates/protocol/src/framing.rs). */
module Framing {
  import opened Numbers

  type byte = n: int | 0 <= n < 256

  const I32_MAX: int := 0x7FFF_FFFF
  const HEADER_LEN := 5
  const LENGTH_FIELD_LEN := 4
  const STARTUP_CODE_LEN := 4
  const MAX_MESSAGE: nat := 0x4000_0000

  datatype Frame = Frame(tag: byte, body: seq<byte>)

  datatype FrameError = InvalidLength(len: int) | TooLarge(total: nat, max: nat)

  datatype Length = BodyLength(value: nat) | BadLength(error: FrameError)

  datatype Decoded<T> =
    | Incomplete
    | Message(message: T, rest: seq<byte>)
    | Malformed(error: FrameError)

  // ------------------------------------------------------------- 32-bit integers

  /** `put_i32`, for any 32-bit value. */
  function PutI32(n: int): (r: seq<byte>)
    requires -0x8000_0000 <= n <= I32_MAX
    ensures |r| == 4
  {
    var u := if n < 0 then n + 0x1_0000_0000 else n;
    [u / 256 / 256 / 256, u / 256 / 256 % 256, u / 256 % 256, u % 256]
  }

  /** `i32::from_be_bytes`. */
  function I32(b: seq<byte>): (n: int)
    requires |b| == 4
    ensures -0x8000_0000 <= n <= I32_MAX
  {
    var u := Unsigned(b);
    if u > I32_MAX then u - 0x1_0000_0000 else u
  }

  function Unsigned(b: seq<byte>): (u: int)
    requires |b| == 4
    ensures 0 <= u < 0x1_0000_0000
  {
    ((b[0] as int * 256 + b[1] as int) * 256 + b[2] as int) * 256 + b[3] as int
  }

  lemma LastDigit(q: int, r: byte)
    ensures (q * 256 + r as int) / 256 == q && (q * 256 + r as int) % 256 == r as int
  {
  }

  lemma I32OfPut(n: int)
    requires -0x8000_0000 <= n <= I32_MAX
    ensures I32(PutI32(n)) == n
  {
    var u := if n < 0 then n + 0x1_0000_0000 else n;
    assert u == u / 256 * 256 + u % 256;
    assert u / 256 == u / 256 / 256 * 256 + u / 256 % 256;
    assert u / 256 / 256 == u / 256 / 256 / 256 * 256 + u / 256 / 256 % 256;
    assert Unsigned(PutI32(n)) == u;
  }

  lemma PutOfI32(b: seq<byte>)
    requires |b| == 4
    ensures PutI32(I32(b)) == b
  {
    LastDigit(b[0] as int, b[1]);
    LastDigit(b[0] as int * 256 + b[1] as int, b[2]);
    LastDigit((b[0] as int * 256 + b[1] as int) * 256 + b[2] as int, b[3]);
  }

  // -------------------------------------------------------------------- frames

  function BodyLen(lengthBytes: seq<byte>, minLen: nat, maxLen: nat): Length
    requires |lengthBytes| == 4 && LENGTH_FIELD_LEN <= minLen
  {
    var len := I32(lengthBytes);
    if len < minLen then BadLength(InvalidLength(len))
    else if len > maxLen then BadLength(TooLarge(len, maxLen))
    else BodyLength(len - LENGTH_FIELD_LEN)
  }

  /** A body the length field can announce; the source panics on a longer one. */
  predicate Encodable(body: seq<byte>) { |body| + LENGTH_FIELD_LEN <= I32_MAX }

  function EncodeFrame(f: Frame): (r: seq<byte>)
    requires Encodable(f.body)
    ensures |r| == HEADER_LEN + |f.body|
  {
    [f.tag] + PutI32(|f.body| + LENGTH_FIELD_LEN) + f.body
  }

  function DecodeFrame(buf: seq<byte>, maxLen: nat): Decoded<Frame> {
    if |buf| < HEADER_LEN then Incomplete
    else
      match BodyLen(buf[1..HEADER_LEN], LENGTH_FIELD_LEN, maxLen)
      case BadLength(e) => Malformed(e)
      case BodyLength(n) =>
        if |buf| < HEADER_LEN + n then Incomplete
        else Message(Frame(buf[0], buf[HEADER_LEN..HEADER_LEN + n]), buf[HEADER_LEN + n..])
  }

  function EncodeStartupFrame(body: seq<byte>): (r: seq<byte>)
    requires Encodable(body)
    ensures |r| == LENGTH_FIELD_LEN + |body|
  {
    PutI32(|body| + LENGTH_FIELD_LEN) + body
  }

  function DecodeStartupFrame(buf: seq<byte>, maxLen: nat): Decoded<seq<byte>> {
    if |buf| < LENGTH_FIELD_LEN then Incomplete
    else
      match BodyLen(buf[..LENGTH_FIELD_LEN], LENGTH_FIELD_LEN + STARTUP_CODE_LEN, maxLen)
      case BadLength(e) => Malformed(e)
      case BodyLength(n) =>
        if |buf| < LENGTH_FIELD_LEN + n then Incomplete
        else Message(buf[LENGTH_FIELD_LEN..LENGTH_FIELD_LEN + n], buf[LENGTH_FIELD_LEN + n..])
  }

  /** Four bytes, most significant first, in two's complement. */
  function Announced(b: seq<byte>): int
    requires |b| == 4
  {
    var u := b[0] as int * 0x100_0000 + b[1] as int * 0x1_0000 + b[2] as int * 0x100 + b[3] as int;
    if b[0] >= 0x80 then u - 0x1_0000_0000 else u
  }

  lemma AnnouncedIsRead(b: seq<byte>)
    requires |b| == 4
    ensures I32(b) == Announced(b)
  {
  }

  /** On the wire a frame is its tag, the length of the rest, itself included, and the body. */
  lemma FrameBytes(f: Frame)
    requires Encodable(f.body)
    ensures var r := EncodeFrame(f);
            r[0] == f.tag && Announced(r[1..5]) == 4 + |f.body| && r[5..] == f.body
  {
    var r := EncodeFrame(f);
    I32OfPut(|f.body| + LENGTH_FIELD_LEN);
    assert r[1..5] == PutI32(|f.body| + LENGTH_FIELD_LEN);
    AnnouncedIsRead(r[1..5]);
  }

  /** What is read from the wire, by the length announced: nothing yet while the header or the body is
      incomplete, an error when the length is below its own four bytes or above the limit, and
      otherwise tag, body and what follows. */
  lemma DecodeFrameMeans(buf: seq<byte>, maxLen: nat)
    ensures |buf| < 5 ==> DecodeFrame(buf, maxLen) == Incomplete
    ensures |buf| >= 5 ==>
              var len := Announced(buf[1..5]);
              DecodeFrame(buf, maxLen) ==
              if len < 4 then Malformed(InvalidLength(len))
              else if len > maxLen then Malformed(TooLarge(len, maxLen))
              else if |buf| < 1 + len then Incomplete
              else Message(Frame(buf[0], buf[5..1 + len]), buf[1 + len..])
  {
    if |buf| >= 5 {
      AnnouncedIsRead(buf[1..5]);
    }
  }

  /** A startup frame has no tag, and its length covers at least a request code. */
  lemma DecodeStartupMeans(buf: seq<byte>, maxLen: nat)
    ensures |buf| < 4 ==> DecodeStartupFrame(buf, maxLen) == Incomplete
    ensures |buf| >= 4 ==>
              var len := Announced(buf[..4]);
              DecodeStartupFrame(buf, maxLen) ==
              if len < 8 then Malformed(InvalidLength(len))
              else if len > maxLen then Malformed(TooLarge(len, maxLen))
              else if |buf| < len then Incomplete
              else Message(buf[4..len], buf[len..])
  {
    if |buf| >= 4 {
      AnnouncedIsRead(buf[..4]);
    }
  }

  lemma StartupFrameBytes(body: seq<byte>)
    requires Encodable(body)
    ensures var r := EncodeStartupFrame(body);
            Announced(r[..4]) == 4 + |body| && r[4..] == body
  {
    var r := EncodeStartupFrame(body);
    I32OfPut(|body| + LENGTH_FIELD_LEN);
    assert r[..4] == PutI32(|body| + LENGTH_FIELD_LEN);
    AnnouncedIsRead(r[..4]);
  }

  /** Encoding then decoding gives the frame back and leaves what follows it unread. */
  lemma DecodeOfEncode(f: Frame, rest: seq<byte>, maxLen: nat)
    requires Encodable(f.body) && |f.body| + LENGTH_FIELD_LEN <= maxLen
    ensures DecodeFrame(EncodeFrame(f) + rest, maxLen) == Message(f, rest)
  {
    var n := |f.body|;
    var buf := EncodeFrame(f) + rest;
    I32OfPut(n + LENGTH_FIELD_LEN);
    assert buf[1..HEADER_LEN] == PutI32(n + LENGTH_FIELD_LEN);
    assert buf[HEADER_LEN..HEADER_LEN + n] == f.body;
    assert buf[HEADER_LEN + n..] == rest;
  }

  /** A startup frame that carries at least a request code comes back whole. */
  lemma DecodeOfEncodeStartup(body: seq<byte>, rest: seq<byte>, maxLen: nat)
    requires Encodable(body) && STARTUP_CODE_LEN <= |body| && |body| + LENGTH_FIELD_LEN <= maxLen
    ensures DecodeStartupFrame(EncodeStartupFrame(body) + rest, maxLen) == Message(body, rest)
  {
    var n := |body|;
    var buf := EncodeStartupFrame(body) + rest;
    I32OfPut(n + LENGTH_FIELD_LEN);
    assert buf[..LENGTH_FIELD_LEN] == PutI32(n + LENGTH_FIELD_LEN);
    assert buf[LENGTH_FIELD_LEN..LENGTH_FIELD_LEN + n] == body;
    assert buf[LENGTH_FIELD_LEN + n..] == rest;
  }

  /** Decoding then encoding gives the bytes back: putting a frame back where it was read from,
      as `hold` does, restores the stream exactly. */
  lemma EncodeOfDecode(buf: seq<byte>, maxLen: nat)
    requires DecodeFrame(buf, maxLen).Message?
    ensures var m := DecodeFrame(buf, maxLen);
            Encodable(m.message.body) && EncodeFrame(m.message) + m.rest == buf && |m.rest| < |buf|
  {
    var m := DecodeFrame(buf, maxLen);
    PutOfI32(buf[1..HEADER_LEN]);
    assert I32(buf[1..HEADER_LEN]) == |m.message.body| + LENGTH_FIELD_LEN;
    assert buf == [buf[0]] + buf[1..HEADER_LEN] + m.message.body + m.rest;
  }

  /** More input never changes what has been decoded or refused. */
  lemma DecodeIsStable(buf: seq<byte>, more: seq<byte>, maxLen: nat)
    ensures var d := DecodeFrame(buf, maxLen);
            && (d.Message? ==> DecodeFrame(buf + more, maxLen) == Message(d.message, d.rest + more))
            && (d.Malformed? ==> DecodeFrame(buf + more, maxLen) == d)
  {
    if |buf| >= HEADER_LEN {
      var all := buf + more;
      assert all[1..HEADER_LEN] == buf[1..HEADER_LEN];
      var d := DecodeFrame(buf, maxLen);
      if d.Message? {
        var n := |d.message.body|;
        assert all[HEADER_LEN..HEADER_LEN + n] == buf[HEADER_LEN..HEADER_LEN + n];
        assert all[HEADER_LEN + n..] == buf[HEADER_LEN + n..] + more;
      }
    }
  }

  // ------------------------------------------------------- incremental decoding

  /** What decoding a buffer as far as it goes leaves: the frames, and the bytes not consumed. */
  datatype Progress = Progress(frames: seq<Frame>, rest: seq<byte>)

  function DecodeAll(buf: seq<byte>, maxLen: nat): Progress
    decreases |buf|
  {
    var d := DecodeFrame(buf, maxLen);
    if d.Message? then
      EncodeOfDecode(buf, maxLen);
      var later := DecodeAll(d.rest, maxLen);
      Progress([d.message] + later.frames, later.rest)
    else Progress([], buf)
  }

  predicate AllEncodable(frames: seq<Frame>) {
    forall k :: 0 <= k < |frames| ==> Encodable(frames[k].body)
  }

  function EncodeAll(frames: seq<Frame>): seq<byte>
    requires AllEncodable(frames)
  {
    if frames == [] then [] else EncodeFrame(frames[0]) + EncodeAll(frames[1..])
  }

  /** A reader that decodes after every chunk it is given. */
  function Feed(p: Progress, chunk: seq<byte>, maxLen: nat): Progress {
    var next := DecodeAll(p.rest + chunk, maxLen);
    Progress(p.frames + next.frames, next.rest)
  }

  function FeedAll(p: Progress, chunks: seq<seq<byte>>, maxLen: nat): Progress
    decreases |chunks|
  {
    if chunks == [] then p else FeedAll(Feed(p, chunks[0], maxLen), chunks[1..], maxLen)
  }

  function Concat(chunks: seq<seq<byte>>): seq<byte> {
    if chunks == [] then [] else chunks[0] + Concat(chunks[1..])
  }

  /** Stopping part way and going on later is the same as decoding at once. */
  lemma {:induction false} DecodeAllResumes(buf: seq<byte>, more: seq<byte>, maxLen: nat)
    ensures DecodeAll(buf + more, maxLen) == Feed(DecodeAll(buf, maxLen), more, maxLen)
    decreases |buf|
  {
    var d := DecodeFrame(buf, maxLen);
    DecodeIsStable(buf, more, maxLen);
    if d.Message? {
      EncodeOfDecode(buf, maxLen);
      DecodeAllResumes(d.rest, more, maxLen);
      var later := DecodeAll(d.rest, maxLen);
      FeedAfterFrame(d.message, later, more, maxLen);
    } else {
      NothingYet(buf, more, maxLen);
    }
  }

  lemma FeedAfterFrame(f: Frame, p: Progress, more: seq<byte>, maxLen: nat)
    ensures Feed(Progress([f] + p.frames, p.rest), more, maxLen)
            == Progress([f] + Feed(p, more, maxLen).frames, Feed(p, more, maxLen).rest)
  {
    var next := DecodeAll(p.rest + more, maxLen);
    assert [f] + p.frames + next.frames == [f] + (p.frames + next.frames);
  }

  lemma NothingYet(buf: seq<byte>, more: seq<byte>, maxLen: nat)
    ensures Feed(Progress([], buf), more, maxLen) == DecodeAll(buf + more, maxLen)
  {
    var next := DecodeAll(buf + more, maxLen);
    assert [] + next.frames == next.frames;
  }

  lemma {:induction false} ChunksDoNotMatter(buf: seq<byte>, chunks: seq<seq<byte>>, maxLen: nat)
    ensures FeedAll(DecodeAll(buf, maxLen), chunks, maxLen) == DecodeAll(buf + Concat(chunks), maxLen)
    decreases |chunks|
  {
    if chunks == [] {
      assert buf + [] == buf;
    } else {
      DecodeAllResumes(buf, chunks[0], maxLen);
      ChunksDoNotMatter(buf + chunks[0], chunks[1..], maxLen);
      assert buf + (chunks[0] + Concat(chunks[1..])) == (buf + chunks[0]) + Concat(chunks[1..]);
    }
  }

  ghost predicate Sendable(frames: seq<Frame>, maxLen: nat) {
    forall k :: 0 <= k < |frames| ==> Encodable(frames[k].body) && |frames[k].body| + LENGTH_FIELD_LEN <= maxLen
  }

  lemma {:induction false} DecodeAllOfEncodeAll(frames: seq<Frame>, tail: seq<byte>, maxLen: nat)
    requires Sendable(frames, maxLen)
    ensures DecodeAll(EncodeAll(frames) + tail, maxLen)
            == Progress(frames + DecodeAll(tail, maxLen).frames, DecodeAll(tail, maxLen).rest)
    decreases |frames|
  {
    if frames == [] {
      assert EncodeAll(frames) + tail == tail;
    } else {
      var later := DecodeAll(tail, maxLen);
      SplitFirst(frames, later.frames);
      EncodeAllCons(frames[0], frames[1..], tail);
      DecodeAllOfEncodeAll(frames[1..], tail, maxLen);
      FirstFrame(frames[0], EncodeAll(frames[1..]) + tail, maxLen);
    }
  }

  lemma SplitFirst(frames: seq<Frame>, later: seq<Frame>)
    requires frames != []
    ensures frames == [frames[0]] + frames[1..] && frames + later == [frames[0]] + (frames[1..] + later)
  {
  }

  lemma FirstFrame(f: Frame, rest: seq<byte>, maxLen: nat)
    requires Encodable(f.body) && |f.body| + LENGTH_FIELD_LEN <= maxLen
    ensures DecodeAll(EncodeFrame(f) + rest, maxLen)
            == Progress([f] + DecodeAll(rest, maxLen).frames, DecodeAll(rest, maxLen).rest)
  {
    DecodeOfEncode(f, rest, maxLen);
  }

  /** Any frames, encoded, cut anywhere and decoded as the pieces arrive, come out as they went in. */
  lemma StreamRoundTrip(frames: seq<Frame>, chunks: seq<seq<byte>>, maxLen: nat)
    requires Sendable(frames, maxLen) && Concat(chunks) == EncodeAll(frames)
    ensures FeedAll(Progress([], []), chunks, maxLen) == Progress(frames, [])
  {
    ChunksDoNotMatter([], chunks, maxLen);
    NothingAround(Concat(chunks));
    DecodeAllOfEncodeAll(frames, [], maxLen);
    NoFrames(frames);
  }

  lemma NothingAround(s: seq<byte>)
    ensures [] + s == s && s + [] == s
  {
  }

  lemma NoFrames(frames: seq<Frame>)
    ensures frames + [] == frames
  {
  }

  /** Nothing is consumed early: at any point the frames decoded and the bytes kept are exactly the
      bytes received. */
  lemma {:induction false} NothingIsLost(buf: seq<byte>, maxLen: nat)
    ensures AllEncodable(DecodeAll(buf, maxLen).frames)
    ensures EncodeAll(DecodeAll(buf, maxLen).frames) + DecodeAll(buf, maxLen).rest == buf
    decreases |buf|
  {
    var d := DecodeFrame(buf, maxLen);
    if d.Message? {
      EncodeOfDecode(buf, maxLen);
      NothingIsLost(d.rest, maxLen);
      var later := DecodeAll(d.rest, maxLen);
      EncodeAllCons(d.message, later.frames, later.rest);
    } else {
      assert [] + buf == buf;
    }
  }

  lemma EncodeAllCons(f: Frame, frames: seq<Frame>, rest: seq<byte>)
    requires Encodable(f.body) && AllEncodable(frames)
    ensures AllEncodable([f] + frames)
    ensures EncodeAll([f] + frames) + rest == EncodeFrame(f) + (EncodeAll(frames) + rest)
  {
    assert ([f] + frames)[1..] == frames;
    assert EncodeAll([f] + frames) == EncodeFrame(f) + EncodeAll(frames);
  }

  // ---------------------------------------------------------------- the buffer

  /** The buffer the codecs append to and consume from in place. */
  class Buffer {
    var bytes: seq<byte>

    constructor ()
      ensures bytes == []
    {
      bytes := [];
    }

    method Encode(f: Frame)
      requires Encodable(f.body)
      modifies this
      ensures bytes == old(bytes) + EncodeFrame(f)
    {
      bytes := bytes + [f.tag];
      bytes := bytes + PutI32(|f.body| + LENGTH_FIELD_LEN);
      bytes := bytes + f.body;
    }

    /** `decode_frame`: consumes a whole frame or nothing. */
    method Decode(maxLen: nat) returns (d: Decoded<Frame>)
      modifies this
      ensures d == DecodeFrame(old(bytes), maxLen)
      ensures bytes == if d.Message? then d.rest else old(bytes)
    {
      if |bytes| < HEADER_LEN {
        return Incomplete;
      }
      var tag := bytes[0];
      var length := BodyLen(bytes[1..HEADER_LEN], LENGTH_FIELD_LEN, maxLen);
      if length.BadLength? {
        return Malformed(length.error);
      }
      if |bytes| < HEADER_LEN + length.value {
        return Incomplete;
      }
      ghost var all := bytes;
      bytes := bytes[HEADER_LEN..];
      var body := bytes[..length.value];
      bytes := bytes[length.value..];
      assert body == all[HEADER_LEN..HEADER_LEN + length.value];
      assert bytes == all[HEADER_LEN + length.value..];
      d := Message(Frame(tag, body), bytes);
    }

    /** `hold`: puts a frame back ahead of what is waiting. */
    method Hold(f: Frame)
      requires Encodable(f.body)
      modifies this
      ensures bytes == EncodeFrame(f) + old(bytes)
    {
      bytes := EncodeFrame(f) + bytes;
    }
  }
}
