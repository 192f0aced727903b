/**
 The encoders as they are written: a buffer of precomputed size filled through an
 advancing offset. Each is proved equal to the concatenation form of `Commands`.
 The first part is the Bun encoder, the second the browser's.
 */
module WireEncoder {
  import opened Bytes
  import opened Frames
  import opened Commands

  // ---------------------------------------------------------------------------
  // Buffer primitives
  // ---------------------------------------------------------------------------

  /** target.set(data, off) */
  method PutBytes(a: array<byte>, off: nat, data: bytes) returns (next: nat)
    requires off + |data| <= a.Length
    modifies a
    ensures next == off + |data|
    ensures a[..next] == old(a[..off]) + data
  {
    for i := 0 to |data|
      invariant a[..off] == old(a[..off])
      invariant a[off..off + i] == data[..i]
    {
      a[off + i] := data[i];
      assert data[..i + 1] == data[..i] + [data[i]];
    }
    next := off + |data|;
    assert a[..next] == a[..off] + a[off..next];
    assert data[..|data|] == data;
  }

  /** DataView.setUint32(off, v, false) */
  method PutU32(a: array<byte>, off: nat, v: int) returns (next: nat)
    requires off + 4 <= a.Length
    modifies a
    ensures next == off + 4
    ensures a[..next] == old(a[..off]) + U32(v)
  {
    next := PutBytes(a, off, U32(v));
  }

  /** DataView.setBigUint64(off, v, false) */
  method PutU64(a: array<byte>, off: nat, v: int) returns (next: nat)
    requires off + 8 <= a.Length
    modifies a
    ensures next == off + 8
    ensures a[..next] == old(a[..off]) + U64(v)
  {
    next := PutBytes(a, off, U64(v));
  }

  method PutByte(a: array<byte>, off: nat, b: byte) returns (next: nat)
    requires off < a.Length
    modifies a
    ensures next == off + 1
    ensures a[..next] == old(a[..off]) + [b]
  {
    next := PutBytes(a, off, [b]);
  }

  /** A length field and its bytes, the step every payload is made of. */
  method PutField(a: array<byte>, off: nat, data: bytes) returns (next: nat)
    requires off + 4 + |data| <= a.Length
    modifies a
    ensures next == off + 4 + |data|
    ensures a[..next] == old(a[..off]) + Field(data)
  {
    hide U32;
    next := PutU32(a, off, |data|);
    next := PutBytes(a, next, data);
    AppendAssoc(old(a[..off]), U32(|data|), data);
  }

  lemma Whole(a: array<byte>, s: bytes)
    requires a[..a.Length] == s
    ensures a[..] == s
  {}

  // ---------------------------------------------------------------------------
  // Bun payloads
  // ---------------------------------------------------------------------------

  /** encodeLenPrefixedUtf8, lenPrefixed and lenPrefixedBytes */
  method LenPrefixed(data: bytes) returns (r: bytes)
    ensures r == Field(data)
  {
    var out := new byte[4 + |data|];
    var n := PutField(out, 0, data);
    assert out[..n] == out[..];
    assert [] + Field(data) == Field(data);
    r := out[..];
  }

  /** Two length-prefixed fields; PUB and VDELETE, and PUB of the browser. */
  method TwoFields(first: bytes, second: bytes) returns (r: bytes)
    ensures r == Field(first) + Field(second)
  {
    hide Field;
    var payload := new byte[4 + |first| + 4 + |second|];
    var pos := PutField(payload, 0, first);
    assert payload[..0] == [];
    var n := PutField(payload, pos, second);
    assert [] + Field(first) == Field(first);
    r := payload[..];
  }

  /** SUB: the filter is written only if it is given and non-empty. */
  method SubPayload(channel: bytes, filter: Option<bytes>) returns (r: bytes)
    ensures r == Payload(Sub(channel, filter))
  {
    hide Field;
    if filter.Some? && filter.value != [] {
      r := TwoFields(channel, filter.value);
    } else {
      r := LenPrefixed(channel);
      assert r + [] == r;
    }
  }

  /** SET of the Bun encoder: fixed positions. */
  method SetPayload(key: bytes, value: bytes, worm: bool) returns (r: bytes)
    ensures r == Payload(Set(key, value, worm))
  {
    hide Field;
    var payload := new byte[1 + 4 + |key| + 4 + |value|];
    var one := PutByte(payload, 0, if worm then 1 else 0);
    assert payload[..0] == [];
    assert payload[..1] == [if worm then 1 else 0];
    var valueLenPos := PutField(payload, 1, key);
    var n := PutField(payload, valueLenPos, value);
    AppendAssoc([if worm then 1 else 0], Field(key), Field(value));
    r := payload[..];
  }

  lemma {:induction false} FieldsSnoc(args: seq<bytes>, a: bytes)
    ensures FieldsOf(args + [a]) == FieldsOf(args) + Field(a)
  {
    hide Field;
    if args == [] {
      assert args + [a] == [a];
      assert [a][1..] == [];
      assert FieldsOf([a]) == Field(a) + FieldsOf([]);
    } else {
      FieldsSnoc(args[1..], a);
      assert (args + [a])[1..] == args[1..] + [a];
      AppendAssoc(Field(args[0]), FieldsOf(args[1..]), Field(a));
    }
  }

  lemma {:induction false} FieldsLen(args: seq<bytes>, i: nat)
    requires i <= |args|
    ensures |FieldsOf(args[..i])| <= |FieldsOf(args)|
    ensures i < |args| ==> |FieldsOf(args[..i])| + 4 + |args[i]| <= |FieldsOf(args)|
  {
    hide Field;
    if args == [] {
      assert args[..i] == [];
    } else if i == 0 {
      assert args[..0] == [];
    } else {
      FieldsLen(args[1..], i - 1);
      assert args[..i][1..] == args[1..][..i - 1];
    }
  }

  /** The size loop of EXEC, from a given start. */
  method ArgsSize(start: nat, args: seq<bytes>) returns (size: nat)
    ensures size == start + |FieldsOf(args)|
  {
    hide Field;
    size := start;
    assert args[..0] == [];
    for i := 0 to |args|
      invariant size == start + |FieldsOf(args[..i])|
    {
      size := size + 4 + |args[i]|;
      assert args[..i + 1] == args[..i] + [args[i]];
      FieldsSnoc(args[..i], args[i]);
    }
    assert args[..|args|] == args;
  }

  /** The fill loop of EXEC. */
  method PutArgs(a: array<byte>, start: nat, args: seq<bytes>) returns (off: nat)
    requires start + |FieldsOf(args)| <= a.Length
    modifies a
    ensures off == start + |FieldsOf(args)|
    ensures a[..off] == old(a[..start]) + FieldsOf(args)
  {
    hide Field;
    off := start;
    ghost var head := a[..start];
    assert args[..0] == [] && head + [] == head;
    for i := 0 to |args|
      invariant off == start + |FieldsOf(args[..i])| <= a.Length
      invariant a[..off] == head + FieldsOf(args[..i])
    {
      FieldsLen(args, i);
      off := PutField(a, off, args[i]);
      assert args[..i + 1] == args[..i] + [args[i]];
      FieldsSnoc(args[..i], args[i]);
      hide FieldsOf;
      AppendAssoc(head, FieldsOf(args[..i]), Field(args[i]));
    }
    assert args[..|args|] == args;
  }

  /** EXEC: the size loop and the fill loop agree, so the offset ends exactly at the size. */
  method ExecPayload(procedure: bytes, args: seq<bytes>) returns (r: bytes, size: nat, off: nat)
    ensures r == Payload(Exec(procedure, args))
    ensures off == size == |r|
  {
    ghost var all := Payload(Exec(procedure, args));
    assert all == Field(procedure) + (U32(|args|) + FieldsOf(args));
    hide Field, U32, FieldsOf, Payload;
    size := ArgsSize(4 + |procedure| + 4, args);
    var payload := new byte[size];
    off := PutField(payload, 0, procedure);
    assert payload[..0] == [] && [] + Field(procedure) == Field(procedure);
    off := PutU32(payload, off, |args|);
    assert payload[..off] == Field(procedure) + U32(|args|);
    off := PutArgs(payload, off, args);
    AppendAssoc(Field(procedure), U32(|args|), FieldsOf(args));
    Whole(payload, all);
    r := payload[..];
  }

  /** flags |= 0x01 if worm, |= 0x02 if async. */
  method FlagByte(worm: bool, async: bool) returns (flags: byte)
    ensures flags == Flags(worm, async)
  {
    flags := 0;
    if worm { flags := flags + 1; }
    if async { flags := flags + 2; }
  }

  method VinsertPayload(c: Command) returns (r: bytes, size: nat, off: nat)
    requires c.Vinsert?
    ensures r == Payload(c)
    ensures off == size == |r|
  {
    hide Field, U64, Flags;
    size := 4 + |c.key| + 4 + |c.vector| + 1 + 4 + |c.ns| + 4 + |c.metric| + 8;
    var payload := new byte[size];
    off := PutField(payload, 0, c.key);
    assert payload[..0] == [] && [] + Field(c.key) == Field(c.key);
    off := PutField(payload, off, c.vector);
    var flags := FlagByte(c.worm, c.async);
    off := PutByte(payload, off, flags);
    off := PutField(payload, off, c.ns);
    off := PutField(payload, off, c.metric);
    off := PutU64(payload, off, c.timestamp);
    Nest6(Field(c.key), Field(c.vector), [flags], Field(c.ns), Field(c.metric), U64(c.timestamp));
    Whole(payload, Payload(c));
    r := payload[..];
  }

  lemma Nest6(a: bytes, b: bytes, c: bytes, d: bytes, e: bytes, f: bytes)
    ensures ((((a + b) + c) + d) + e) + f == a + (b + (c + (d + (e + f))))
  {
    AppendAssoc((((a + b) + c) + d), e, f);
    AppendAssoc((a + b) + c, d, e + f);
    AppendAssoc(a + b, c, d + (e + f));
    AppendAssoc(a, b, c + (d + (e + f)));
  }

  lemma Nest5(a: bytes, b: bytes, c: bytes, d: bytes, e: bytes)
    ensures (((a + b) + c) + d) + e == a + (b + (c + (d + e)))
  {
    AppendAssoc((a + b) + c, d, e);
    AppendAssoc(a + b, c, d + e);
    AppendAssoc(a, b, c + (d + e));
  }

  lemma {:induction false} ItemsSnoc(items: seq<Item>, it: Item)
    ensures ItemsOf(items + [it]) == ItemsOf(items) + ItemBytes(it)
  {
    hide ItemBytes;
    if items == [] {
      assert items + [it] == [it];
      assert [it][1..] == [];
      assert ItemsOf([it]) == ItemBytes(it) + ItemsOf([]);
    } else {
      ItemsSnoc(items[1..], it);
      assert (items + [it])[1..] == items[1..] + [it];
      AppendAssoc(ItemBytes(items[0]), ItemsOf(items[1..]), ItemBytes(it));
    }
  }

  lemma ItemLen(it: Item)
    ensures |ItemBytes(it)| == 4 + |it.key| + 4 + |it.vector| + 8
  {}

  lemma {:induction false} ItemsLen(items: seq<Item>, i: nat)
    requires i <= |items|
    ensures |ItemsOf(items[..i])| <= |ItemsOf(items)|
    ensures i < |items| ==> |ItemsOf(items[..i])| + |ItemBytes(items[i])| <= |ItemsOf(items)|
  {
    hide ItemBytes;
    if items == [] {
      assert items[..i] == [];
    } else if i == 0 {
      assert items[..0] == [];
    } else {
      ItemsLen(items[1..], i - 1);
      assert items[..i][1..] == items[1..][..i - 1];
    }
  }

  /** One item of VBULKINSERT: [len][key][len][vector][8B timestamp]. */
  method PutItem(a: array<byte>, off: nat, it: Item) returns (next: nat)
    requires off + |ItemBytes(it)| <= a.Length
    modifies a
    ensures next == off + |ItemBytes(it)|
    ensures a[..next] == old(a[..off]) + ItemBytes(it)
  {
    ItemLen(it);
    hide Field, U64;
    next := PutField(a, off, it.key);
    next := PutField(a, next, it.vector);
    next := PutU64(a, next, it.timestamp);
    AppendAssoc(old(a[..off]) + Field(it.key), Field(it.vector), U64(it.timestamp));
    AppendAssoc(old(a[..off]), Field(it.key), Field(it.vector) + U64(it.timestamp));
  }

  /** The size loop of VBULKINSERT, from a given start. */
  method ItemsSize(start: nat, items: seq<Item>) returns (size: nat)
    ensures size == start + |ItemsOf(items)|
  {
    hide ItemBytes;
    size := start;
    assert items[..0] == [];
    for i := 0 to |items|
      invariant size == start + |ItemsOf(items[..i])|
    {
      ItemLen(items[i]);
      size := size + 4 + |items[i].key| + 4 + |items[i].vector| + 8;
      assert items[..i + 1] == items[..i] + [items[i]];
      ItemsSnoc(items[..i], items[i]);
    }
    assert items[..|items|] == items;
  }

  /** The fill loop of VBULKINSERT. */
  method PutItems(a: array<byte>, start: nat, items: seq<Item>) returns (off: nat)
    requires start + |ItemsOf(items)| <= a.Length
    modifies a
    ensures off == start + |ItemsOf(items)|
    ensures a[..off] == old(a[..start]) + ItemsOf(items)
  {
    hide ItemBytes;
    off := start;
    ghost var head := a[..start];
    assert items[..0] == [] && head + [] == head;
    for i := 0 to |items|
      invariant off == start + |ItemsOf(items[..i])| <= a.Length
      invariant a[..off] == head + ItemsOf(items[..i])
    {
      ItemsLen(items, i);
      off := PutItem(a, off, items[i]);
      assert items[..i + 1] == items[..i] + [items[i]];
      ItemsSnoc(items[..i], items[i]);
      hide ItemsOf;
      AppendAssoc(head, ItemsOf(items[..i]), ItemBytes(items[i]));
    }
    assert items[..|items|] == items;
  }

  method VbulkinsertPayload(c: Command) returns (r: bytes, size: nat, off: nat)
    requires c.Vbulkinsert?
    ensures r == Payload(c)
    ensures off == size == |r|
  {
    var n := |c.items|;
    var flags := FlagByte(c.worm, c.async);
    ghost var all := Payload(c);
    assert all == Field(c.ns) + (Field(c.metric) + ([flags] + (U32(n) + ItemsOf(c.items))));
    hide Field, U32, ItemsOf, Flags, Payload;
    size := ItemsSize(4 + |c.ns| + 4 + |c.metric| + 1 + 4, c.items);
    var payload := new byte[size];
    off := PutField(payload, 0, c.ns);
    assert payload[..0] == [] && [] + Field(c.ns) == Field(c.ns);
    off := PutField(payload, off, c.metric);
    off := PutByte(payload, off, flags);
    off := PutU32(payload, off, n);
    assert payload[..off] == ((Field(c.ns) + Field(c.metric)) + [flags]) + U32(n);
    off := PutItems(payload, off, c.items);
    Nest5(Field(c.ns), Field(c.metric), [flags], U32(n), ItemsOf(c.items));
    Whole(payload, all);
    r := payload[..];
  }

  /** A frame of any payload, whatever its length does to the length field. */
  function RawEncode(code: byte, payload: bytes): bytes { [code] + Field(payload) }

  /** The buffer both writeFrame and the browser's frame fill. */
  method FillFrame(code: byte, payload: bytes) returns (r: bytes)
    ensures r == RawEncode(code, payload)
  {
    hide Field;
    var out := new byte[5 + |payload|];
    var one := PutByte(out, 0, code);
    assert out[..0] == [] && out[..1] == [code];
    var n := PutField(out, 1, payload);
    Whole(out, [code] + Field(payload));
    r := out[..];
  }

  /** writeFrame; None is PayloadTooLargeError. */
  method WriteFrame(code: byte, payload: bytes) returns (r: Option<bytes>)
    ensures r == if |payload| > MAX_PAYLOAD then None else Some(Encode(RawFrame.Frame(code, payload)))
  {
    if |payload| > MAX_PAYLOAD {
      return None;
    }
    var out := FillFrame(code, payload);
    r := Some(out);
  }

  /** encodeCommandFrame, with encodeAuth, encodeVdelete and encodeSave beside it. */
  method EncodeCommandFrame(c: Command) returns (r: Option<bytes>)
    ensures r == EncodeCommand(c)
  {
    hide Field, U32, U64, Encode, FieldsOf, ItemsOf;
    var payload: bytes;
    var size, off: nat;
    match c {
      case Get(key) => payload := LenPrefixed(key);
      case Del(key) => payload := LenPrefixed(key);
      case Sub(channel, filter) => payload := SubPayload(channel, filter);
      case Unsub(channel) => payload := LenPrefixed(channel);
      case Set(key, value, worm) => payload := SetPayload(key, value, worm);
      case Pub(channel, message) => payload := TwoFields(channel, message);
      case Exec(procedure, args) => payload, size, off := ExecPayload(procedure, args);
      case Vinsert(_, _, _, _, _, _, _) => payload, size, off := VinsertPayload(c);
      case Vbulkinsert(_, _, _, _, _) => payload, size, off := VbulkinsertPayload(c);
      case Auth(token) => payload := LenPrefixed(token);
      case Vdelete(key, ns) => payload := TwoFields(key, ns);
      case _ => payload := [];
    }
    assert payload == Payload(c);
    r := WriteFrame(Code(c), payload);
  }

  /** concatBytes: one buffer of the total length, filled chunk by chunk. */
  method ConcatBytes(chunks: seq<bytes>) returns (r: bytes)
    ensures r == Concat(chunks)
  {
    var totalLen := 0;
    assert chunks[..0] == [];
    for i := 0 to |chunks|
      invariant totalLen == |Concat(chunks[..i])|
    {
      totalLen := totalLen + |chunks[i]|;
      ConcatStep(chunks, i);
    }
    assert chunks[..|chunks|] == chunks;
    var out := new byte[totalLen];
    var offset := 0;
    for i := 0 to |chunks|
      invariant offset == |Concat(chunks[..i])| <= totalLen
      invariant out[..offset] == Concat(chunks[..i])
    {
      ConcatStep(chunks, i);
      offset := PutBytes(out, offset, chunks[i]);
    }
    Whole(out, Concat(chunks));
    r := out[..];
  }

  // ---------------------------------------------------------------------------
  // The browser's encoders
  // ---------------------------------------------------------------------------

  /** The commands the browser client can send; its SUB has no filter. */
  predicate Shared(c: Command)
  {
    c.Get? || c.Set? || c.Del? || c.Status? || (c.Sub? && c.filter == None) || c.Unsub? || c.Pub? || c.Exec? || c.Auth?
  }

  /** encodeSet of the browser: a moving offset. */
  method BrowserSet(key: bytes, value: bytes, worm: bool) returns (r: bytes)
    ensures r == RawEncode(0x02, Payload(Set(key, value, worm)))
  {
    hide Field, U32;
    var payload := new byte[1 + 4 + |key| + 4 + |value|];
    var off := PutByte(payload, 0, if worm then 1 else 0);
    assert payload[..0] == [] && payload[..1] == [if worm then 1 else 0];
    off := PutU32(payload, off, |key|);
    off := PutBytes(payload, off, key);
    off := PutU32(payload, off, |value|);
    off := PutBytes(payload, off, value);
    Nest5([if worm then 1 else 0], U32(|key|), key, U32(|value|), value);
    AppendAssoc(U32(|key|), key, U32(|value|) + value);
    AsField(key);
    AsField(value);
    Whole(payload, [if worm then 1 else 0] + (Field(key) + Field(value)));
    r := FillFrame(0x02, payload[..]);
  }

  lemma AsField(s: bytes)
    ensures Field(s) == U32(|s|) + s
  {}

  /** encodePub of the browser. */
  method BrowserPub(channel: bytes, message: bytes) returns (r: bytes)
    ensures r == RawEncode(0x08, Payload(Pub(channel, message)))
  {
    hide Field, U32;
    var payload := new byte[4 + |channel| + 4 + |message|];
    assert payload[..0] == [];
    var off := PutU32(payload, 0, |channel|);
    assert [] + U32(|channel|) == U32(|channel|);
    off := PutBytes(payload, off, channel);
    off := PutU32(payload, off, |message|);
    off := PutBytes(payload, off, message);
    AsField(channel);
    AsField(message);
    AppendAssoc(Field(channel), U32(|message|), message);
    Whole(payload, Field(channel) + Field(message));
    r := FillFrame(0x08, payload[..]);
  }

  method BrowserEncode(c: Command) returns (r: bytes)
    requires Shared(c)
    ensures r == RawEncode(Code(c), Payload(c))
  {
    hide Field, U32, FieldsOf, RawEncode;
    var payload: bytes;
    match c {
      case Get(key) => payload := LenPrefixed(key); r := FillFrame(0x01, payload);
      case Set(key, value, worm) => r := BrowserSet(key, value, worm);
      case Del(key) => payload := LenPrefixed(key); r := FillFrame(0x03, payload);
      case Status => r := FillFrame(0x04, []);
      case Sub(channel, _) =>
        payload := LenPrefixed(channel);
        assert payload + [] == payload;
        r := FillFrame(0x06, payload);
      case Unsub(channel) => payload := LenPrefixed(channel); r := FillFrame(0x07, payload);
      case Pub(channel, message) => r := BrowserPub(channel, message);
      case Exec(procedure, args) =>
        var size, off: nat;
        payload, size, off := ExecPayload(procedure, args);
        r := FillFrame(0x09, payload);
      case Auth(token) => payload := LenPrefixed(token); r := FillFrame(0x0C, payload);
    }
  }

  /** Both clients put the same bytes on the wire, exactly for the payloads the Bun client accepts. */
  method BothEncode(c: Command) returns (bun: Option<bytes>, browser: bytes)
    requires Shared(c)
    ensures bun == Some(browser) <==> |Payload(c)| <= MAX_PAYLOAD
    ensures bun.Some? ==>
              var p := TryConsume(browser);
              p.Got? && p.rest == [] && DecodeCommand(p.frame) == Some(Normal(c))
  {
    bun := EncodeCommandFrame(c);
    browser := BrowserEncode(c);
    hide Field, Payload, TryConsume, DecodeCommand;
    EncodedCommandIsReadable(c, []);
    assert browser + [] == browser;
  }
}
