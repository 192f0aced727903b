/**
 The two response decoders: Bun's, which takes a frame already cut from the
 stream, and the browser's, which takes one WebSocket message. Both are written
 with offsets, as in the source, and related to a plain response encoder.
 */
module Responses {
  import opened Bytes
  import opened Frames

  /** Why a response is an error. The two decoders word the last three differently. */
  datatype Reason = FromServer(text: bytes) | MalformedEvent | UnknownCode(code: byte) | FrameTooShort

  datatype Response =
    | Ok
    | Value(data: bytes)
    | Null
    | Error(reason: Reason)
    | Event(channel: bytes, message: bytes)

  /** decodeResponse of apps/bun/src/lib/wire.ts */
  function BunDecode(code: byte, payload: bytes): Response
  {
    if code == 0x00 then Ok
    else if code == 0x01 then Value(payload)
    else if code == 0x02 then Null
    else if code == 0x03 then Error(FromServer(payload))
    else if code == EVENT then
      if |payload| < 8 then Error(MalformedEvent)
      else
        var channelLen := ReadU32(payload);
        if |payload| < 4 + channelLen + 4 then Error(MalformedEvent)
        else
          var channelEnd := 4 + channelLen;
          var msgLen := ReadU32(payload[channelEnd..]);
          var msgStart := channelEnd + 4;
          var msgEnd := msgStart + msgLen;
          if msgEnd > |payload| then Error(MalformedEvent)
          else Event(payload[4..channelEnd], payload[msgStart..msgEnd])
    else Error(UnknownCode(code))
  }

  /** Uint8Array.subarray(from, to) for 0 <= from <= to: both ends are clamped to the length. */
  function Subarray(s: bytes, from: nat, to: nat): bytes
    requires from <= to
  {
    if |s| < from then [] else if |s| < to then s[from..] else s[from..to]
  }

  /** The EVENT branch of the browser's decodeResponse. */
  function BrowserEvent(payload: bytes): Response
  {
    if |payload| < 8 then Error(MalformedEvent)
    else
      var chEnd := 4 + ReadU32(payload);
      if chEnd + 4 > |payload| then Error(MalformedEvent)
      else
        var msgStart := chEnd + 4;
        var msgEnd := msgStart + ReadU32(payload[chEnd..]);
        if msgEnd > |payload| then Error(MalformedEvent)
        else Event(Subarray(payload, 4, chEnd), Subarray(payload, msgStart, msgEnd))
  }

  /** decodeResponse of apps/browser/src/wire.ts */
  function BrowserDecode(data: bytes): Response
  {
    if |data| < 5 then Error(FrameTooShort)
    else
      var payload := Subarray(data, 5, 5 + ReadU32(data[1..]));
      match data[0]
      case 0x00 => Ok
      case 0x01 => Value(payload)
      case 0x02 => Null
      case 0x03 => Error(FromServer(payload))
      case 0x04 => BrowserEvent(payload)
      case code => Error(UnknownCode(code))
  }

  lemma EventsAgree(payload: bytes)
    ensures BrowserEvent(payload) == BunDecode(EVENT, payload)
  {
    hide ReadU32;
  }

  /** On every complete frame, whatever its code and however malformed, the decoders agree. */
  lemma DecodersAgree(f: Frame, trailing: bytes)
    ensures BrowserDecode(Encode(f) + trailing) == BunDecode(f.code, f.payload)
  {
    hide U32, ReadU32, BrowserEvent;
    var data := Encode(f) + trailing;
    assert data[1..] == U32(|f.payload|) + (f.payload + trailing);
    U32RoundTrip(|f.payload|, f.payload + trailing);
    assert data[5..5 + |f.payload|] == f.payload;
    assert Subarray(data, 5, 5 + |f.payload|) == f.payload;
    EventsAgree(f.payload);
  }

  /**
   The same as seen from the stream: when the first frame of a buffer is complete the
   browser decodes what Bun decodes, and when it is not, Bun waits while the browser
   answers at once, from whatever part of the payload there is.
   */
  lemma BrowserDoesNotWait(data: bytes)
    ensures match TryConsume(data)
            case Got(f, _) => BrowserDecode(data) == BunDecode(f.code, f.payload)
            case NeedMore => BrowserDecode(data) ==
                             if |data| < 5 then Error(FrameTooShort) else BunDecode(data[0], data[5..])
  {
    hide Encode;
    match TryConsume(data) {
      case Got(f, rest) =>
        hide *;
        DecodersAgree(f, rest);
      case NeedMore =>
        if |data| >= 5 {
          var n := ReadU32(data[1..]);
          assert |data| < 5 + n;
          hide ReadU32, BrowserEvent;
          assert Subarray(data, 5, 5 + n) == data[5..];
          EventsAgree(data[5..]);
        }
    }
  }

  // ---------------------------------------------------------------------------
  // What the decoder inverts
  // ---------------------------------------------------------------------------

  function EventPayload(channel: bytes, message: bytes): bytes
  {
    Field(channel) + Field(message)
  }

  /** The frame a server writes for a response; a client-side error has none. */
  function ResponseFrame(r: Response): Option<RawFrame>
  {
    match r
    case Ok => Some(RawFrame.Frame(0x00, []))
    case Value(data) => Some(RawFrame.Frame(0x01, data))
    case Null => Some(RawFrame.Frame(0x02, []))
    case Error(FromServer(text)) => Some(RawFrame.Frame(0x03, text))
    case Error(_) => None
    case Event(channel, message) => Some(RawFrame.Frame(EVENT, EventPayload(channel, message)))
  }

  /** A field read at an offset: its length, and its bytes after the length. */
  lemma FieldAt(before: bytes, data: bytes, after: bytes)
    requires |data| < U32_RANGE
    ensures var s := before + (Field(data) + after);
            var n := |before|;
            ReadU32(s[n..]) == |data| && s[n + 4..n + 4 + |data|] == data
  {
    var s := before + (Field(data) + after);
    assert s[|before|..] == U32(|data|) + (data + after);
    U32RoundTrip(|data|, data + after);
    hide U32, ReadU32;
  }

  lemma DecodeEvent(channel: bytes, message: bytes, tail: bytes)
    requires |channel| < U32_RANGE && |message| < U32_RANGE
    ensures BunDecode(EVENT, EventPayload(channel, message) + tail) == Event(channel, message)
  {
    hide Field, ReadU32;
    var payload := EventPayload(channel, message) + tail;
    assert payload == [] + (Field(channel) + (Field(message) + tail));
    assert payload == Field(channel) + (Field(message) + tail);
    assert payload[0..] == payload;
    FieldAt([], channel, Field(message) + tail);
    FieldAt(Field(channel), message, tail);
  }

  /** Every response a server can state survives its frame, by either decoder. */
  lemma ResponseRoundTrip(r: Response)
    requires ResponseFrame(r).Some? && |ResponseFrame(r).value.payload| < U32_RANGE
    ensures var f := ResponseFrame(r).value;
            BunDecode(f.code, f.payload) == r && BrowserDecode(Encode(f)) == r
  {
    var f: Frame := ResponseFrame(r).value;
    if r.Event? {
      DecodeEvent(r.channel, r.message, []);
      assert f.payload + [] == f.payload;
    }
    hide Encode, Field, ReadU32;
    assert Encode(f) + [] == Encode(f);
    DecodersAgree(f, []);
  }

  /**
   An EVENT payload is accepted exactly when it is two length-prefixed fields and a
   tail, and then the fields are the ones decoded; anything else is malformed.
   */
  lemma EventAccepted(payload: bytes)
    ensures BunDecode(EVENT, payload).Event? <==>
            exists channel: bytes, message: bytes, tail: bytes ::
              |channel| < U32_RANGE && |message| < U32_RANGE && payload == EventPayload(channel, message) + tail
    ensures !BunDecode(EVENT, payload).Event? ==> BunDecode(EVENT, payload) == Error(MalformedEvent)
  {
    if BunDecode(EVENT, payload).Event? {
      EventSplits(payload);
      hide BunDecode, EventPayload;
      var Event(channel, message) := BunDecode(EVENT, payload);
      var tail := payload[8 + |channel| + |message|..];
      assert payload == EventPayload(channel, message) + tail;
    }
    forall channel: bytes, message: bytes, tail: bytes |
      |channel| < U32_RANGE && |message| < U32_RANGE && payload == EventPayload(channel, message) + tail
      ensures BunDecode(EVENT, payload).Event?
    {
      DecodeEvent(channel, message, tail);
    }
  }

  /** A code no server uses is reported with the code. */
  lemma UnknownCodes(code: byte, payload: bytes)
    ensures code > 4 <==> BunDecode(code, payload) == Error(UnknownCode(code))
  {
    hide ReadU32;
  }

  lemma EventSplits(payload: bytes)
    requires BunDecode(EVENT, payload).Event?
    ensures var Event(channel, message) := BunDecode(EVENT, payload);
            && |channel| < U32_RANGE && |message| < U32_RANGE
            && 8 + |channel| + |message| <= |payload|
            && payload == EventPayload(channel, message) + payload[8 + |channel| + |message|..]
  {
    hide Field, ReadU32;
    var n := ReadU32(payload);
    var rest := payload[4 + n..];
    var m := ReadU32(rest);
    SplitField(payload);
    SplitField(rest);
    var channel, message, tail := payload[4..4 + n], rest[4..4 + m], rest[4 + m..];
    assert message == payload[4 + n + 4..4 + n + 4 + m];
    assert tail == payload[8 + n + m..];
    assert Field(channel) + (Field(message) + tail) == EventPayload(channel, message) + tail;
  }

  lemma SplitField(s: bytes)
    requires |s| >= 4 && 4 + ReadU32(s) <= |s|
    ensures s == Field(s[4..4 + ReadU32(s)]) + s[4 + ReadU32(s)..]
  {
    hide U32, ReadU32;
    U32OfRead(s);
    var n := ReadU32(s);
    assert s == s[..4] + s[4..4 + n] + s[4 + n..];
  }
}
