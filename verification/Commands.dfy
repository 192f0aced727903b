/**
 The WormWire commands: their payload layout as plain concatenation, and a
 reference decoder that recovers every command from its frame.
 */
module Commands {
  import opened Bytes
  import opened Frames

  datatype Item = Item(key: bytes, vector: bytes, timestamp: int)

  datatype Command =
    | Get(key: bytes)
    | Del(key: bytes)
    | Sub(channel: bytes, filter: Option<bytes>)
    | Unsub(channel: bytes)
    | Status
    | ClusterStatus
    | ClusterPeers
    | Set(key: bytes, value: bytes, worm: bool)
    | Pub(channel: bytes, message: bytes)
    | Exec(procedure: bytes, args: seq<bytes>)
    | Vinsert(key: bytes, vector: bytes, worm: bool, async: bool, ns: bytes, metric: bytes, timestamp: int)
    | Vbulkinsert(ns: bytes, metric: bytes, worm: bool, async: bool, items: seq<Item>)
    | Auth(token: bytes)
    | Vdelete(key: bytes, ns: bytes)
    | Save

  const SUB: byte := 0x06
  const UNSUB: byte := 0x07

  function Code(c: Command): byte
  {
    match c
    case Get(_) => 0x01
    case Set(_, _, _) => 0x02
    case Del(_) => 0x03
    case Status => 0x04
    case ClusterStatus => 0x05
    case Sub(_, _) => SUB
    case Unsub(_) => UNSUB
    case Pub(_, _) => 0x08
    case Exec(_, _) => 0x09
    case ClusterPeers => 0x0A
    case Save => 0x0B
    case Auth(_) => 0x0C
    case Vinsert(_, _, _, _, _, _, _) => 0x0D
    case Vdelete(_, _) => 0x0E
    case Vbulkinsert(_, _, _, _, _) => 0x0F
  }

  function Flags(worm: bool, async: bool): byte
  {
    (if worm then 1 else 0) + (if async then 2 else 0)
  }

  function FieldsOf(args: seq<bytes>): bytes
  {
    if args == [] then [] else Field(args[0]) + FieldsOf(args[1..])
  }

  function ItemBytes(it: Item): bytes
  {
    Field(it.key) + (Field(it.vector) + U64(it.timestamp))
  }

  function ItemsOf(items: seq<Item>): bytes
  {
    if items == [] then [] else ItemBytes(items[0]) + ItemsOf(items[1..])
  }

  /** The payload of a command, field after field. An empty SUB filter is the same as none. */
  function Payload(c: Command): bytes
  {
    match c
    case Get(key) => Field(key)
    case Del(key) => Field(key)
    case Sub(channel, filter) =>
      Field(channel) + (if filter.Some? && filter.value != [] then Field(filter.value) else [])
    case Unsub(channel) => Field(channel)
    case Status => []
    case ClusterStatus => []
    case ClusterPeers => []
    case Set(key, value, worm) => [if worm then 1 else 0] + (Field(key) + Field(value))
    case Pub(channel, message) => Field(channel) + Field(message)
    case Exec(procedure, args) => Field(procedure) + (U32(|args|) + FieldsOf(args))
    case Vinsert(key, vector, worm, async, ns, metric, timestamp) =>
      Field(key) + (Field(vector) + ([Flags(worm, async)] + (Field(ns) + (Field(metric) + U64(timestamp)))))
    case Vbulkinsert(ns, metric, worm, async, items) =>
      Field(ns) + (Field(metric) + ([Flags(worm, async)] + (U32(|items|) + ItemsOf(items))))
    case Auth(token) => Field(token)
    case Vdelete(key, ns) => Field(key) + Field(ns)
    case Save => []
  }

  /** A command the wire cap lets through; encoding any other command throws. */
  predicate Fits(c: Command) { |Payload(c)| <= MAX_PAYLOAD }

  function ToFrame(c: Command): Frame
    requires Fits(c)
  {
    RawFrame.Frame(Code(c), Payload(c))
  }

  /** encodeCommandFrame, encodeAuth, encodeVdelete and encodeSave; None is PayloadTooLargeError. */
  function EncodeCommand(c: Command): Option<bytes>
  {
    if Fits(c) then Some(Encode(ToFrame(c))) else None
  }

  // ---------------------------------------------------------------------------
  // Reference decoder
  // ---------------------------------------------------------------------------

  function ReadFields(n: nat, s: bytes): Option<(seq<bytes>, bytes)>
  {
    if n == 0 then Some(([], s))
    else match ReadField(s)
      case None => None
      case Some((x, rest)) =>
        match ReadFields(n - 1, rest)
        case None => None
        case Some((xs, tail)) => Some(([x] + xs, tail))
  }

  function ReadItem(s: bytes): Option<(Item, bytes)>
  {
    match ReadFields(2, s)
    case None => None
    case Some((kv, rest)) =>
      if |kv| != 2 || |rest| < 8 then None else Some((Item(kv[0], kv[1], ReadU64(rest)), rest[8..]))
  }

  function ReadItems(n: nat, s: bytes): Option<(seq<Item>, bytes)>
  {
    if n == 0 then Some(([], s))
    else match ReadItem(s)
      case None => None
      case Some((x, rest)) =>
        match ReadItems(n - 1, rest)
        case None => None
        case Some((xs, tail)) => Some(([x] + xs, tail))
  }

  /** Exactly n fields and nothing after them. */
  function WholeFields(n: nat, s: bytes): (r: Option<seq<bytes>>)
    ensures r.Some? ==> |r.value| == n
  {
    match ReadFields(n, s)
    case None => None
    case Some((xs, tail)) => if tail == [] && |xs| == n then Some(xs) else None
  }

  function DecodeSub(s: bytes): Option<Command>
  {
    match WholeFields(1, s)
    case Some(xs) => Some(Sub(xs[0], None))
    case None =>
      match WholeFields(2, s)
      case Some(xs) => Some(Sub(xs[0], Some(xs[1])))
      case None => None
  }

  function DecodeExec(s: bytes): Option<Command>
  {
    match ReadField(s)
    case None => None
    case Some((procedure, rest)) =>
      if |rest| < 4 then None
      else match WholeFields(ReadU32(rest), rest[4..])
        case None => None
        case Some(args) => Some(Exec(procedure, args))
  }

  function DecodeVinsert(s: bytes): Option<Command>
  {
    match ReadFields(2, s)
    case None => None
    case Some((kv, rest)) =>
      if |kv| != 2 || |rest| < 1 || rest[0] > 3 then None
      else match ReadFields(2, rest[1..])
        case None => None
        case Some((nm, tail)) =>
          if |nm| != 2 || |tail| != 8 then None
          else Some(Vinsert(kv[0], kv[1], rest[0] % 2 == 1, rest[0] / 2 == 1, nm[0], nm[1], ReadU64(tail)))
  }

  function DecodeVbulkinsert(s: bytes): Option<Command>
  {
    match ReadFields(2, s)
    case None => None
    case Some((nm, rest)) =>
      if |nm| != 2 || |rest| < 5 || rest[0] > 3 then None
      else match ReadItems(ReadU32(rest[1..]), rest[5..])
        case None => None
        case Some((items, tail)) =>
          if tail != [] then None
          else Some(Vbulkinsert(nm[0], nm[1], rest[0] % 2 == 1, rest[0] / 2 == 1, items))
  }

  function DecodeSet(s: bytes): Option<Command>
  {
    if s == [] || s[0] > 1 then None
    else match WholeFields(2, s[1..])
      case None => None
      case Some(xs) => Some(Set(xs[0], xs[1], s[0] == 1))
  }

  function DecodeOne(s: bytes, make: bytes -> Command): Option<Command>
  {
    match WholeFields(1, s)
    case None => None
    case Some(xs) => Some(make(xs[0]))
  }

  function DecodeTwo(s: bytes, make: (bytes, bytes) -> Command): Option<Command>
  {
    match WholeFields(2, s)
    case None => None
    case Some(xs) => Some(make(xs[0], xs[1]))
  }

  function DecodeEmpty(s: bytes, c: Command): Option<Command>
  {
    if s == [] then Some(c) else None
  }

  function DecodeCommand(f: Frame): Option<Command>
  {
    var s := f.payload;
    match f.code as int
    case 0x01 => DecodeOne(s, k => Get(k))
    case 0x02 => DecodeSet(s)
    case 0x03 => DecodeOne(s, k => Del(k))
    case 0x04 => DecodeEmpty(s, Status)
    case 0x05 => DecodeEmpty(s, ClusterStatus)
    case 0x06 => DecodeSub(s)
    case 0x07 => DecodeOne(s, k => Unsub(k))
    case 0x08 => DecodeTwo(s, (a, b) => Pub(a, b))
    case 0x09 => DecodeExec(s)
    case 0x0A => DecodeEmpty(s, ClusterPeers)
    case 0x0B => DecodeEmpty(s, Save)
    case 0x0C => DecodeOne(s, k => Auth(k))
    case 0x0D => DecodeVinsert(s)
    case 0x0E => DecodeTwo(s, (a, b) => Vdelete(a, b))
    case 0x0F => DecodeVbulkinsert(s)
    case _ => None
  }

  // ---------------------------------------------------------------------------
  // Round trip
  // ---------------------------------------------------------------------------

  function NormalItems(items: seq<Item>): seq<Item>
  {
    if items == [] then []
    else [items[0].(timestamp := items[0].timestamp % U64_RANGE)] + NormalItems(items[1..])
  }

  /** What the wire can carry of a command: no empty filter, timestamps as 64-bit words. */
  function Normal(c: Command): Command
  {
    match c
    case Sub(channel, filter) => Sub(channel, if filter == Some([]) then None else filter)
    case Vinsert(_, _, _, _, _, _, t) => c.(timestamp := t % U64_RANGE)
    case Vbulkinsert(_, _, _, _, items) => c.(items := NormalItems(items))
    case _ => c
  }

  lemma {:induction false} ReadFieldsOf(args: seq<bytes>, rest: bytes)
    requires |FieldsOf(args)| < U32_RANGE
    ensures ReadFields(|args|, FieldsOf(args) + rest) == Some((args, rest))
    ensures 4 * |args| <= |FieldsOf(args)|
  {
    hide Field, ReadField;
    if args == [] {
      assert FieldsOf(args) + rest == rest;
    } else {
      var tail := FieldsOf(args[1..]);
      ReadFieldsOf(args[1..], rest);
      FieldRoundTrip(args[0], tail + rest);
      assert FieldsOf(args) + rest == Field(args[0]) + (tail + rest);
      assert [args[0]] + args[1..] == args;
    }
  }

  lemma {:induction false} ReadTwo(a: bytes, b: bytes, rest: bytes)
    requires |a| < U32_RANGE && |b| < U32_RANGE
    ensures ReadFields(2, Field(a) + (Field(b) + rest)) == Some(([a, b], rest))
  {
    hide Field, ReadField;
    FieldRoundTrip(a, Field(b) + rest);
    FieldRoundTrip(b, rest);
    assert ReadFields(0, rest) == Some(([], rest));
    assert [b] + [] == [b];
    assert ReadFields(1, Field(b) + rest) == Some(([b], rest));
    assert [a] + [b] == [a, b];
  }

  lemma {:induction false} ReadItemsOf(items: seq<Item>, rest: bytes)
    requires |ItemsOf(items)| < U32_RANGE
    ensures ReadItems(|items|, ItemsOf(items) + rest) == Some((NormalItems(items), rest))
    ensures 4 * |items| <= |ItemsOf(items)|
  {
    hide ItemBytes, ReadItem;
    if items == [] {
      assert ItemsOf(items) + rest == rest;
    } else {
      var it, tail := items[0], ItemsOf(items[1..]) + rest;
      ReadItemsOf(items[1..], rest);
      ReadItemOf(it, tail);
      AppendAssoc(ItemBytes(it), ItemsOf(items[1..]), rest);
    }
  }

  lemma ReadItemOf(it: Item, tail: bytes)
    requires |ItemBytes(it)| < U32_RANGE
    ensures ReadItem(ItemBytes(it) + tail) == Some((it.(timestamp := it.timestamp % U64_RANGE), tail))
    ensures 4 <= |ItemBytes(it)|
  {
    hide Field, ReadField, U64, ReadU64, ReadFields;
    var stamp := U64(it.timestamp) + tail;
    ReadTwo(it.key, it.vector, stamp);
    U64RoundTrip(it.timestamp, tail);
    assert ItemBytes(it) + tail == Field(it.key) + (Field(it.vector) + stamp);
  }

  lemma WholeOne(a: bytes)
    requires |a| < U32_RANGE
    ensures WholeFields(1, Field(a)) == Some([a])
  {
    FieldRoundTrip(a, []);
    assert Field(a) + [] == Field(a);
    hide Field, ReadField;
    assert ReadFields(0, []) == Some(([], []));
    assert [a] + [] == [a];
  }

  lemma WholeTwo(a: bytes, b: bytes)
    requires |a| < U32_RANGE && |b| < U32_RANGE
    ensures WholeFields(2, Field(a) + Field(b)) == Some([a, b])
    ensures WholeFields(1, Field(a) + Field(b)) == None
  {
    ReadTwo(a, b, []);
    FieldRoundTrip(a, Field(b));
    assert Field(b) + [] == Field(b);
    hide Field, ReadField;
    assert ReadFields(0, Field(b)) == Some(([], Field(b)));
  }

  lemma ExecRoundTrip(procedure: bytes, args: seq<bytes>)
    requires Fits(Exec(procedure, args))
    ensures DecodeExec(Payload(Exec(procedure, args))) == Some(Exec(procedure, args))
  {
    hide Field, ReadField, U32, ReadU32, ReadFields, FieldsOf;
    var fields := FieldsOf(args);
    var rest := U32(|args|) + fields;
    FieldRoundTrip(procedure, rest);
    U32RoundTrip(|args|, fields);
    ReadFieldsOf(args, []);
    assert fields + [] == fields;
    assert rest[4..] == fields;
    assert WholeFields(|args|, fields) == Some(args);
  }

  lemma VinsertRoundTrip(c: Command)
    requires c.Vinsert? && Fits(c)
    ensures DecodeVinsert(Payload(c)) == Some(Normal(c))
  {
    hide Field, ReadField, U64, ReadU64, ReadFields;
    var stamp := U64(c.timestamp);
    var nm := Field(c.ns) + (Field(c.metric) + stamp);
    var flags := Flags(c.worm, c.async);
    var rest := [flags] + nm;
    assert flags % 2 == (if c.worm then 1 else 0) && flags / 2 == (if c.async then 1 else 0);
    hide Flags;
    ReadTwo(c.key, c.vector, rest);
    ReadTwo(c.ns, c.metric, stamp);
    U64RoundTrip(c.timestamp, []);
    assert stamp + [] == stamp;
    assert rest[1..] == nm;
  }

  lemma VbulkinsertRoundTrip(c: Command)
    requires c.Vbulkinsert? && Fits(c)
    ensures DecodeVbulkinsert(Payload(c)) == Some(Normal(c))
  {
    hide Field, ReadField, U32, ReadU32, ReadFields, ItemsOf, ReadItems;
    var items := ItemsOf(c.items);
    var count := U32(|c.items|) + items;
    var flags := Flags(c.worm, c.async);
    var rest := [flags] + count;
    assert flags % 2 == (if c.worm then 1 else 0) && flags / 2 == (if c.async then 1 else 0);
    hide Flags;
    ReadTwo(c.ns, c.metric, rest);
    U32RoundTrip(|c.items|, items);
    ReadItemsOf(c.items, []);
    assert items + [] == items;
    assert rest[1..] == count && rest[5..] == items;
  }

  lemma SetRoundTrip(key: bytes, value: bytes, worm: bool)
    requires Fits(Set(key, value, worm))
    ensures DecodeSet(Payload(Set(key, value, worm))) == Some(Set(key, value, worm))
  {
    WholeTwo(key, value);
    hide WholeFields, Field;
    assert Payload(Set(key, value, worm))[1..] == Field(key) + Field(value);
  }

  lemma SubRoundTrip(channel: bytes, filter: Option<bytes>)
    requires Fits(Sub(channel, filter))
    ensures DecodeSub(Payload(Sub(channel, filter))) == Some(Normal(Sub(channel, filter)))
  {
    if filter.Some? && filter.value != [] {
      WholeTwo(channel, filter.value);
    } else {
      WholeOne(channel);
      assert Payload(Sub(channel, filter)) == Field(channel);
    }
  }

  /**
   Every command that passes the cap is recovered from its frame: no length or
   count field was cut to 32 bits on the way, however many args or items it has.
   */
  lemma CommandRoundTrip(c: Command)
    requires Fits(c)
    ensures DecodeCommand(ToFrame(c)) == Some(Normal(c))
  {
    hide Field, WholeFields, DecodeSub, DecodeSet, DecodeExec, DecodeVinsert, DecodeVbulkinsert;
    match c
    case Get(k) => WholeOne(k);
    case Del(k) => WholeOne(k);
    case Unsub(k) => WholeOne(k);
    case Auth(k) => WholeOne(k);
    case Pub(a, b) => WholeTwo(a, b);
    case Vdelete(a, b) => WholeTwo(a, b);
    case Sub(a, b) => SubRoundTrip(a, b);
    case Set(a, b, w) => SetRoundTrip(a, b, w);
    case Exec(p, args) => ExecRoundTrip(p, args);
    case Vinsert(_, _, _, _, _, _, _) => VinsertRoundTrip(c);
    case Vbulkinsert(_, _, _, _, _) => VbulkinsertRoundTrip(c);
    case _ =>
  }

  /**
   Encoding succeeds exactly within the cap, and then a reader of the byte stream
   gets the command back with whatever bytes follow it untouched.
   */
  lemma EncodedCommandIsReadable(c: Command, rest: bytes)
    ensures EncodeCommand(c).Some? <==> |Payload(c)| <= MAX_PAYLOAD
    ensures EncodeCommand(c).Some? ==>
              var p := TryConsume(EncodeCommand(c).value + rest);
              p.Got? && p.rest == rest && DecodeCommand(p.frame) == Some(Normal(c))
  {
    if Fits(c) {
      ConsumeEncoded(ToFrame(c), rest);
      CommandRoundTrip(c);
    }
  }

  /** The first field of a payload: the channel of a SUB or UNSUB. */
  function FirstField(s: bytes): Option<bytes>
  {
    match ReadField(s)
    case None => None
    case Some((x, _)) => Some(x)
  }

  lemma FirstFieldOf(channel: bytes, rest: bytes)
    requires |channel| < U32_RANGE
    ensures FirstField(Field(channel) + rest) == Some(channel)
  {
    FieldRoundTrip(channel, rest);
  }
}
