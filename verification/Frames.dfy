/**
 The frame layer: [1B code][4B payload length][payload], its incremental parser,
 and the fact that reassembly does not depend on how the stream was cut.
 */
module Frames {
  import opened Bytes

  /** Largest payload the client writes (16 MiB). */
  const MAX_PAYLOAD: int := 16 * 1024 * 1024

  /** Response code of an out-of-band EVENT frame. */
  const EVENT: byte := 0x04

  datatype RawFrame = Frame(code: byte, payload: bytes)

  /** A frame whose payload length fits its four-byte length field. */
  type Frame = f: RawFrame | |f.payload| < U32_RANGE witness RawFrame.Frame(0, [])

  datatype Parse = NeedMore | Got(frame: Frame, rest: bytes)

  function Encode(f: Frame): (r: bytes)
    ensures |r| == 5 + |f.payload|
  {
    [f.code] + Field(f.payload)
  }

  function EncodeAll(fs: seq<Frame>): bytes
  {
    if fs == [] then [] else Encode(fs[0]) + EncodeAll(fs[1..])
  }

  /** tryConsumeFrame: the first frame of the buffer, or NeedMore if it is not all there. */
  function TryConsume(buffer: bytes): (r: Parse)
    ensures r.Got? ==> buffer == Encode(r.frame) + r.rest
  {
    if |buffer| < 5 then NeedMore
    else
      var payloadLen := ReadU32(buffer[1..]);
      var totalLen := 5 + payloadLen;
      if |buffer| < totalLen then NeedMore
      else
        DecodeHeader(buffer);
        Got(RawFrame.Frame(buffer[0], buffer[5..totalLen]), buffer[totalLen..])
  }

  lemma DecodeHeader(buffer: bytes)
    requires |buffer| >= 5 && |buffer| >= 5 + ReadU32(buffer[1..])
    ensures var n := ReadU32(buffer[1..]);
            buffer == Encode(RawFrame.Frame(buffer[0], buffer[5..5 + n])) + buffer[5 + n..]
  {
    var n := ReadU32(buffer[1..]);
    U32OfRead(buffer[1..]);
    hide U32, ReadU32;
    assert buffer[1..][..4] == buffer[1..5];
    assert buffer == [buffer[0]] + buffer[1..5] + buffer[5..5 + n] + buffer[5 + n..];
  }

  /** Frames are self-delimiting: a whole frame parses back whatever follows it. */
  lemma ConsumeEncoded(f: Frame, rest: bytes)
    ensures TryConsume(Encode(f) + rest) == Got(f, rest)
  {
    var b := Encode(f) + rest;
    assert b[1..] == U32(|f.payload|) + (f.payload + rest);
    U32RoundTrip(|f.payload|, f.payload + rest);
    assert b[5..5 + |f.payload|] == f.payload;
    assert b[5 + |f.payload|..] == rest;
  }

  /** More bytes never change a frame that is already complete. */
  lemma ConsumeAppend(buffer: bytes, more: bytes)
    requires TryConsume(buffer).Got?
    ensures TryConsume(buffer + more) == Got(TryConsume(buffer).frame, TryConsume(buffer).rest + more)
  {
    var Got(f, rest) := TryConsume(buffer);
    assert buffer + more == Encode(f) + (rest + more);
    ConsumeEncoded(f, rest + more);
  }

  lemma {:induction false} ConsEncoded(f: Frame, fs: seq<Frame>, left: bytes)
    ensures Encode(f) + (EncodeAll(fs) + left) == EncodeAll([f] + fs) + left
  {
    hide Encode;
    assert ([f] + fs)[1..] == fs;
    AppendAssoc(Encode(f), EncodeAll(fs), left);
  }

  /** The consume loop run to the end: every complete frame, and the bytes left over. */
  function ParseAll(buffer: bytes): (r: (seq<Frame>, bytes))
    ensures buffer == EncodeAll(r.0) + r.1
    ensures TryConsume(r.1).NeedMore?
    decreases |buffer|
  {
    match TryConsume(buffer)
    case NeedMore => ([], buffer)
    case Got(f, rest) =>
      var (fs, left) := ParseAll(rest);
      ConsEncoded(f, fs, left);
      ([f] + fs, left)
  }

  /** Parsing a then b, carrying the leftover, is parsing a + b. */
  lemma {:induction false} ParseAppend(a: bytes, b: bytes)
    ensures var (fs, left) := ParseAll(a);
            var (gs, tail) := ParseAll(left + b);
            ParseAll(a + b) == (fs + gs, tail)
    decreases |a|
  {
    hide TryConsume, EncodeAll;
    match TryConsume(a) {
      case NeedMore =>
        assert ParseAll(a) == ([], a);
        var gs := ParseAll(a + b).0;
        assert [] + gs == gs;
      case Got(f, rest) =>
        ConsumeAppend(a, b);
        ParseAppend(rest, b);
        var (fs, left) := ParseAll(rest);
        var (gs, tail) := ParseAll(left + b);
        assert [f] + (fs + gs) == ([f] + fs) + gs;
    }
  }

  /** onData called once per chunk: the frames consumed so far and the inbound buffer. */
  function Feed(inbound: bytes, chunks: seq<bytes>): (seq<Frame>, bytes)
    decreases |chunks|
  {
    if chunks == [] then ([], inbound)
    else
      var (fs, left) := ParseAll(inbound + chunks[0]);
      var (gs, tail) := Feed(left, chunks[1..]);
      (fs + gs, tail)
  }

  /** Reassembly is independent of chunking. */
  lemma {:induction false} FeedIsParse(inbound: bytes, chunks: seq<bytes>)
    requires TryConsume(inbound).NeedMore?
    ensures Feed(inbound, chunks) == ParseAll(inbound + Concat(chunks))
    decreases |chunks|
  {
    hide TryConsume, EncodeAll;
    if chunks == [] {
      assert inbound + Concat(chunks) == inbound;
    } else {
      var first, more := inbound + chunks[0], Concat(chunks[1..]);
      assert inbound + Concat(chunks) == first + more;
      hide Concat;
      FeedIsParse(ParseAll(first).1, chunks[1..]);
      ParseAppend(first, more);
    }
  }

  /** What is left over is a proper prefix of some frame, so only more input can complete it. */
  lemma LeftoverIsProperPrefix(left: bytes) returns (f: Frame)
    requires TryConsume(left).NeedMore?
    ensures |left| < |Encode(f)| && left == Encode(f)[..|left|]
  {
    if |left| < 5 {
      var full := left + seq(5 - |left|, _ => 0 as byte);
      var n := ReadU32(full[1..]);
      var b := full + seq(n, _ => 0 as byte);
      assert b[1..5] == full[1..5];
      DecodeHeader(b);
      f := RawFrame.Frame(b[0], b[5..5 + n]);
      assert b[5 + n..] == [];
      assert Encode(f) == b;
    } else {
      var n := ReadU32(left[1..]);
      var b := left + seq(5 + n - |left|, _ => 0 as byte);
      assert b[1..5] == left[1..5];
      DecodeHeader(b);
      f := RawFrame.Frame(b[0], b[5..5 + n]);
      assert b[5 + n..] == [];
      assert Encode(f) == b;
    }
  }

  lemma EncodeNone()
    ensures EncodeAll([]) == []
  {}

  lemma EncodeOne(f: Frame)
    ensures EncodeAll([f]) == Encode(f)
  {
    hide Encode;
    assert EncodeAll([f]) == Encode(f) + EncodeAll([]);
  }

  lemma EmptyHasNoFrame()
    ensures TryConsume([]) == NeedMore
  {}

  lemma {:induction false} EncodeAllAppend(a: seq<Frame>, b: seq<Frame>)
    ensures EncodeAll(a + b) == EncodeAll(a) + EncodeAll(b)
  {
    hide Encode;
    if a == [] {
      assert a + b == b;
    } else {
      EncodeAllAppend(a[1..], b);
      assert (a + b)[1..] == a[1..] + b;
    }
  }

  /**
   Wherever a stream of whole frames is cut, the first part parses to a prefix of
   those frames and the second part completes the rest.
   */
  lemma {:induction false} ParseCutStream(front: bytes, back: bytes, all: seq<Frame>)
    requires front + back == EncodeAll(all)
    ensures var (fs, left) := ParseAll(front);
            && fs <= all
            && left + back == EncodeAll(all[|fs|..])
    decreases |front|
  {
    match TryConsume(front) {
      case NeedMore =>
      case Got(f, rest) =>
        ConsumeAppend(front, back);
        if all != [] {
          ConsumeEncoded(all[0], EncodeAll(all[1..]));
          ParseCutStream(rest, back, all[1..]);
          var fs := ParseAll(rest).0;
          assert all[1..][|fs|..] == all[|[f] + fs|..];
        }
    }
  }

  predicate IsEvent(f: Frame) { f.code == EVENT }

  /** The frames that answer a request: everything but events, in order. */
  function Replies(fs: seq<Frame>): seq<Frame>
  {
    if fs == [] then []
    else (if IsEvent(fs[0]) then [] else [fs[0]]) + Replies(fs[1..])
  }

  lemma {:induction false} RepliesAppend(a: seq<Frame>, b: seq<Frame>)
    ensures Replies(a + b) == Replies(a) + Replies(b)
  {
    hide IsEvent;
    if a == [] {
      assert a + b == b;
    } else {
      RepliesAppend(a[1..], b);
      assert (a + b)[1..] == a[1..] + b && (a + b)[0] == a[0];
      var first := if IsEvent(a[0]) then [] else [a[0]];
      AppendAssoc(first, Replies(a[1..]), Replies(b));
    }
  }
}
