/**
 The load generator's private buffers: a buffered reader and writer over a socket,
 the response consumer on top of the reader, and the ring of requests in flight.
 Each is proved to be the simple stream or queue it stands for.
 */
module LoadBuffers {
  import opened Bytes
  import opened Frames
  import opened LoadWriter

  datatype Status = Fine | EndOfStream | ReadFailed | BadFrame

  /** The receiving half of a socket: `ahead` is what the peer has yet to be read. */
  class InStream {
    var ahead: bytes

    /** stream.read: some bytes, none only at the end of the stream or for an empty destination; or an error. */
    method Read(max: nat) returns (ok: bool, data: bytes)
      modifies this
      ensures |data| <= max && data + ahead == old(ahead)
      ensures ok && data == [] ==> max == 0 || ahead == []
      ensures !ok ==> data == []
    {
      ok :| ok == true || ok == false;
      var n: nat :| n <= max && n <= |ahead| && (!ok ==> n == 0) && (ok && n == 0 ==> max == 0 || ahead == []) by {
        var m := if ok && max > 0 && ahead != [] then 1 else 0;
        assert m <= max && m <= |ahead|;
      }
      data := ahead[..n];
      ahead := ahead[n..];
    }
  }

  /** The sending half: a failed write may have sent any part of its data. */
  class OutStream {
    var sent: bytes

    method WriteAll(data: bytes) returns (ok: bool, n: nat)
      modifies this
      ensures n <= |data| && sent == old(sent) + data[..n]
      ensures ok ==> n == |data|
    {
      ok :| ok == true || ok == false;
      n :| n <= |data| && (ok ==> n == |data|);
      sent := sent + data[..n];
    }
  }

  /** @memcpy(dest[lo..lo + data.len], data) */
  method CopyInto(dest: array<byte>, lo: nat, data: bytes)
    requires lo + |data| <= dest.Length
    modifies dest
    ensures dest[..lo] == old(dest[..lo]) && dest[lo..lo + |data|] == data
  {
    for i := 0 to |data|
      invariant dest[..lo] == old(dest[..lo])
      invariant dest[lo..lo + i] == data[..i]
    {
      dest[lo + i] := data[i];
      assert data[..i + 1] == data[..i] + [data[i]];
    }
    assert data[..|data|] == data;
  }

  // ---------------------------------------------------------------------------
  // BufferedReader
  // ---------------------------------------------------------------------------

  class BufferedReader {
    const stream: InStream
    const buf: array<byte>
    var pos: nat
    var end: nat

    ghost predicate Valid()
      reads this
    {
      buf.Length == BUF_LEN && pos <= end <= BUF_LEN && (pos == end ==> end == 0)
    }

    /** What is still to be delivered: buffered bytes, then the stream. */
    ghost function Unread(): bytes
      requires Valid()
      reads this, buf, stream
    {
      buf[pos..end] + stream.ahead
    }

    constructor (s: InStream)
      ensures Valid() && stream == s && fresh(buf) && pos == end
      ensures Unread() == s.ahead
    {
      stream := s;
      buf := new byte[BUF_LEN];
      pos, end := 0, 0;
    }

    /** read(dest[lo..hi]): what it delivers is taken off the front of the unread bytes. */
    method Read(dest: array<byte>, lo: nat, hi: nat) returns (ok: bool, n: nat)
      requires Valid() && lo <= hi <= dest.Length && dest != buf
      modifies this, buf, stream, dest
      ensures Valid() && n <= hi - lo
      ensures dest[..lo] == old(dest[..lo]) && dest[lo..lo + n] + Unread() == old(Unread())
      ensures ok && n == 0 && lo < hi ==> old(Unread()) == []
      ensures !ok ==> n == 0
    {
      if pos < end {
        n := TakeBuffered(dest, lo, hi);
        ok := true;
      } else if hi - lo >= BUF_LEN {
        ghost var was := stream.ahead;
        assert Unread() == was;
        var data;
        ok, data := stream.Read(hi - lo);
        CopyInto(dest, lo, data);
        n := |data|;
      } else {
        ok, n := Refill(dest, lo, hi);
      }
    }

    /** The buffer holds something: deliver from it. */
    method TakeBuffered(dest: array<byte>, lo: nat, hi: nat) returns (n: nat)
      requires Valid() && pos < end && lo <= hi <= dest.Length && dest != buf
      modifies this, dest
      ensures Valid() && n <= hi - lo && (n == 0 ==> lo == hi)
      ensures dest[..lo] == old(dest[..lo]) && dest[lo..lo + n] + Unread() == old(Unread())
    {
      n := if end - pos < hi - lo then end - pos else hi - lo;
      ghost var here, left, ahead := buf[pos..pos + n], buf[pos + n..end], stream.ahead;
      assert buf[pos..end] == here + left;
      CopyInto(dest, lo, buf[pos..pos + n]);
      pos := pos + n;
      if pos == end {
        pos, end := 0, 0;
      }
      assert buf[pos..end] == left;
      assert here + (left + ahead) == (here + left) + ahead;
    }

    /** The buffer is empty: fill it from the stream, deliver the front and keep the rest. */
    method Refill(dest: array<byte>, lo: nat, hi: nat) returns (ok: bool, n: nat)
      requires Valid() && pos == end && lo <= hi <= dest.Length && dest != buf
      modifies this, buf, stream, dest
      ensures Valid() && n <= hi - lo
      ensures dest[..lo] == old(dest[..lo]) && dest[lo..lo + n] + Unread() == old(Unread())
      ensures ok && n == 0 && lo < hi ==> old(Unread()) == []
      ensures !ok ==> n == 0
    {
      assert Unread() == stream.ahead;
      var got;
      ok, got := LoadBuf();
      n := 0;
      if got == 0 {
        assert dest[lo..lo] == [];
        return;
      }
      n := if got < hi - lo then got else hi - lo;
      ghost var data, ahead := buf[..got], stream.ahead;
      CopyInto(dest, lo, buf[..n]);
      if n < got {
        pos, end := n, got;
      }
      assert buf[pos..end] == data[n..];
      assert buf[..n] == data[..n];
      CutAndJoin(data, n, ahead);
    }

    /** stream.read(&self.buf) */
    method LoadBuf() returns (ok: bool, got: nat)
      requires Valid()
      modifies buf, stream
      ensures got <= BUF_LEN && buf[..got] + stream.ahead == old(stream.ahead)
      ensures ok && got == 0 ==> stream.ahead == []
      ensures !ok ==> got == 0
    {
      var data;
      ok, data := stream.Read(BUF_LEN);
      CopyInto(buf, 0, data);
      got := |data|;
      assert buf[..got] == buf[0..0 + got];
    }
  }

  lemma CutAndJoin(data: bytes, n: nat, rest: bytes)
    requires n <= |data|
    ensures data[..n] + (data[n..] + rest) == data + rest
  {}

  /** readExact(dest[..hi]) */
  method ReadExact(reader: BufferedReader, dest: array<byte>, hi: nat) returns (status: Status)
    requires reader.Valid() && hi <= dest.Length && dest != reader.buf
    modifies reader, reader.buf, reader.stream, dest
    ensures reader.Valid()
    ensures status == Fine ==> dest[..hi] + reader.Unread() == old(reader.Unread())
    ensures status == EndOfStream ==> |old(reader.Unread())| < hi
    ensures status != BadFrame
  {
    hide BufferedReader.Unread;
    var off := 0;
    assert dest[..0] == [];
    while off < hi
      invariant reader.Valid() && off <= hi
      invariant dest[..off] + reader.Unread() == old(reader.Unread())
    {
      ghost var got, before := dest[..off], reader.Unread();
      var ok, n := reader.Read(dest, off, hi);
      if !ok {
        return ReadFailed;
      }
      if n == 0 {
        return EndOfStream;
      }
      ghost var piece := dest[off..off + n];
      assert dest[..off + n] == dest[..off] + piece;
      Chain(got, before, piece, reader.Unread());
      off := off + n;
    }
    status := Fine;
  }

  lemma Chain(got: bytes, before: bytes, piece: bytes, after: bytes)
    requires piece + after == before
    ensures (got + piece) + after == got + before
  {
    AppendAssoc(got, piece, after);
  }

  method DiscardBytes(reader: BufferedReader, count: nat) returns (status: Status)
    requires reader.Valid()
    modifies reader, reader.buf, reader.stream
    ensures reader.Valid()
    ensures status == Fine ==> count <= |old(reader.Unread())| && reader.Unread() == old(reader.Unread())[count..]
    ensures status == EndOfStream ==> |old(reader.Unread())| < count
    ensures status != BadFrame
  {
    var remaining := count;
    ghost var all := reader.Unread();
    assert all[0..] == all;
    var scratch := new byte[1024];
    status := Fine;
    while remaining > 0
      invariant reader.Valid() && 0 <= remaining <= count && status == Fine
      invariant count - remaining <= |all| && reader.Unread() == all[count - remaining..]
    {
      var chunk := if remaining < 1024 then remaining else 1024;
      ghost var before := reader.Unread();
      status := ReadExact(reader, scratch, chunk);
      if status != Fine {
        return;
      }
      assert reader.Unread() == before[chunk..];
      remaining := remaining - chunk;
    }
  }

  // ---------------------------------------------------------------------------
  // consumeResponse
  // ---------------------------------------------------------------------------

  /** The bytes of a text of characters below 256. */
  function Ascii(s: string): (r: bytes)
    ensures |r| == |s|
  {
    seq(|s|, i requires 0 <= i < |s| => s[i] as int % 256)
  }

  const INSUFFICIENT_FUNDS: bytes := Ascii("insufficient_funds")

  /** A header no response may have: unknown code, over the cap, or OK/NULL with a payload. */
  predicate BadHeader(code: byte, payloadLen: int)
  {
    code > 4 || payloadLen > MAX_PAYLOAD || (code in {0, 2} && payloadLen != 0)
  }

  /** Whether a response counts as a success; a refused transfer is a success of the bench. */
  predicate Succeeds(transfer: bool, f: Frame)
  {
    f.code == 3 ==> transfer && f.payload == INSUFFICIENT_FUNDS
  }

  /** How many of these responses count as successes: all but errors, and the refused transfers of a transfer load. */
  function CountWon(transfer: bool, fs: seq<Frame>): nat
  {
    if fs == [] then 0
    else
      var f := fs[|fs| - 1];
      var won := if f.code == 3 then transfer && f.payload == Ascii("insufficient_funds") else true;
      CountWon(transfer, fs[..|fs| - 1]) + if won then 1 else 0
  }

  /** The verdict of the consumer is the one counted. */
  lemma {:induction false} CountSnoc(transfer: bool, fs: seq<Frame>, f: Frame)
    ensures CountWon(transfer, fs + [f]) == CountWon(transfer, fs) + if Succeeds(transfer, f) then 1 else 0
  {
    assert (fs + [f])[..|fs|] == fs;
  }

  lemma {:induction false} CountAppend(transfer: bool, a: seq<Frame>, b: seq<Frame>)
    ensures CountWon(transfer, a + b) == CountWon(transfer, a) + CountWon(transfer, b)
    decreases |b|
  {
    hide Succeeds;
    if b == [] {
      assert a + b == a;
    } else {
      var n := |b| - 1;
      CountAppend(transfer, a, b[..n]);
      CountSnoc(transfer, a + b[..n], b[n]);
      CountSnoc(transfer, b[..n], b[n]);
      hide CountWon;
      assert a + b == (a + b[..n]) + [b[n]] && b == b[..n] + [b[n]];
    }
  }

  /** The five header bytes, split. */
  lemma HeaderOf(header: bytes, rest: bytes)
    requires |header| == 5
    ensures var s := header + rest;
            var n := ReadU32(header[1..]);
            && s[0] == header[0] && ReadU32(s[1..]) == n
            && TryConsume(s) == if |rest| < n then NeedMore else Got(RawFrame.Frame(header[0], rest[..n]), rest[n..])
  {
    hide Encode;
    var s, n := header + rest, ReadU32(header[1..]);
    assert s[1..5] == header[1..5];
    if |rest| >= n {
      assert s[5..5 + n] == rest[..n] && s[5 + n..] == rest[n..];
    }
  }

  /**
   On success exactly the first whole frame of the unread bytes is gone, and the answer
   is the verdict on that frame. Otherwise the frame is not all there, has a header no
   response may have, or the stream failed.
   */
  method ConsumeResponse(reader: BufferedReader, transfer: bool) returns (status: Status, ok: bool)
    requires reader.Valid()
    modifies reader, reader.buf, reader.stream
    ensures reader.Valid()
    ensures status == Fine ==>
              match TryConsume(old(reader.Unread()))
              case NeedMore => false
              case Got(f, rest) =>
                reader.Unread() == rest && !BadHeader(f.code, |f.payload|) && ok == Succeeds(transfer, f)
    ensures status == EndOfStream ==> TryConsume(old(reader.Unread())) == NeedMore
    ensures status == BadFrame ==>
              var s := old(reader.Unread());
              |s| >= 5 && BadHeader(s[0], ReadU32(s[1..]))
  {
    hide TryConsume, ReadU32, Encode;
    ok := false;
    var header := new byte[5];
    ghost var all := reader.Unread();
    ShortInput(all);
    status := ReadExact(reader, header, 5);
    if status != Fine {
      return;
    }
    var h := header[..];
    ghost var rest := reader.Unread();
    assert header[..5] == h;
    HeaderOf(h, rest);
    var code := h[0];
    var payloadLen := ReadU32(h[1..]);
    if code > 4 || payloadLen > MAX_PAYLOAD || (code in {0, 2} && payloadLen != 0) {
      status := BadFrame;
      return;
    }
    status, ok := ConsumePayload(reader, transfer, code, payloadLen);
  }

  lemma ShortInput(s: bytes)
    ensures |s| < 5 ==> TryConsume(s) == NeedMore
  {}

  /** The switch on the code, with a header that passed the checks. */
  method ConsumePayload(reader: BufferedReader, transfer: bool, code: byte, n: nat) returns (status: Status, ok: bool)
    requires reader.Valid() && n < U32_RANGE && !BadHeader(code, n)
    modifies reader, reader.buf, reader.stream
    ensures reader.Valid()
    ensures status == Fine ==>
              && n <= |old(reader.Unread())| && reader.Unread() == old(reader.Unread())[n..]
              && ok == Succeeds(transfer, RawFrame.Frame(code, old(reader.Unread())[..n]))
    ensures status == EndOfStream ==> |old(reader.Unread())| < n
    ensures status != BadFrame
  {
    status, ok := Fine, true;
    if code == 3 {
      if transfer && n == |INSUFFICIENT_FUNDS| {
        var msg := new byte[n];
        status := ReadExact(reader, msg, n);
        ok := msg[..] == INSUFFICIENT_FUNDS;
        return;
      }
      ok := false;
      status := DiscardBytes(reader, n);
    } else if code in {1, 4} {
      status := DiscardBytes(reader, n);
    }
  }

  // ---------------------------------------------------------------------------
  // BufferedWriter
  // ---------------------------------------------------------------------------

  class BufferedWriter {
    const stream: OutStream
    const buf: array<byte>
    var end: nat

    ghost predicate Valid()
      reads this
    {
      buf.Length == BUF_LEN && end <= BUF_LEN
    }

    /** What the stream took, and what is buffered. */
    ghost function Abs(): Writer
      requires Valid()
      reads this, buf, stream
    {
      Writer(stream.sent, buf[..end])
    }

    constructor (s: OutStream)
      ensures Valid() && stream == s && fresh(buf)
      ensures Abs() == Writer(s.sent, [])
    {
      stream := s;
      buf := new byte[BUF_LEN];
      end := 0;
    }

    /** flush: on failure the buffer is kept as it was, though a bytes of it were taken. */
    method Flush() returns (ok: bool, ghost a: nat)
      requires Valid()
      modifies this, stream
      ensures Valid()
      ensures ok ==> Abs() == LoadWriter.Flush(old(Abs()))
      ensures !ok ==> 0 < |old(Abs()).buffered| && a <= |old(Abs()).buffered| && Abs() == FlushFails(old(Abs()), a)
    {
      ok, a := true, 0;
      if end > 0 {
        var n;
        ok, n := stream.WriteAll(buf[..end]);
        a := n;
        if ok {
          end := 0;
        }
      }
    }

    /** Data that fits is only buffered. */
    method Buffer(data: bytes)
      requires Valid() && end + |data| <= BUF_LEN
      modifies this, buf
      ensures Valid() && Abs() == Writer(stream.sent, old(buf[..end]) + data)
    {
      ghost var kept := buf[..end];
      CopyInto(buf, end, data);
      end := end + |data|;
      assert buf[..end] == kept + data;
    }

    /**
     writeAll ends from any state, also with a buffer left full by an earlier failed flush. It
     sends whole blocks; when the flush of block i fails, that block stays in the buffer.
     */
    method WriteAll(data: bytes) returns (ok: bool, ghost i: nat, ghost a: nat)
      requires Valid()
      modifies this, buf, stream
      ensures Valid()
      ensures ok ==> Abs() == Put(old(Abs()), data)
      ensures !ok ==> CanFail(old(Abs()), data, i, a) && Abs() == PutFails(old(Abs()), data, i, a)
    {
      hide Blocks, Put, PutFails, CanFail;
      var remaining := data;
      ghost var w := Abs();
      ok, i, a := true, 0, 0;
      NoBlocks(w, data);
      while |remaining| > 0
        invariant Valid() && ok && Blocks(w, data, i, Abs(), remaining)
        decreases |remaining|, end
      {
        ghost var before := Abs();
        var space := BUF_LEN - end;
        BlockTurn(w, data, i, before, remaining);
        if |remaining| >= space {
          Buffer(remaining[..space]);
          ok, a := Flush();
          if !ok {
            return;
          }
          remaining := remaining[space..];
          i := i + 1;
        } else {
          Buffer(remaining);
          return;
        }
      }
      AllBlocks(w, data, i, Abs());
    }
  }

  /** writeAll after i blocks: nothing has happened yet, or the buffer is empty and the rest of the data remains. */
  ghost predicate Blocks(w: Writer, data: bytes, i: nat, now: Writer, remaining: bytes)
  {
    var d := w.buffered + data;
    && i * BUF_LEN <= |d|
    && if i == 0 then now == w && remaining == data
       else data != [] && now == Writer(w.taken + d[..i * BUF_LEN], []) && remaining == d[i * BUF_LEN..]
  }

  lemma NoBlocks(w: Writer, data: bytes)
    ensures Blocks(w, data, 0, w, data)
  {}

  lemma AllBlocks(w: Writer, data: bytes, i: nat, now: Writer)
    requires Blocks(w, data, i, now, []) && |w.buffered| <= BUF_LEN
    ensures now == Put(w, data)
  {
    var d := w.buffered + data;
    if i == 0 {
      assert d == w.buffered;
      assert w.taken + d[..0] == w.taken && d[0..] == d;
    } else {
      assert i * BUF_LEN == |d|;
    }
  }

  /** One turn: a whole block, sent or failed, or the last piece. */
  lemma BlockTurn(w: Writer, data: bytes, i: nat, now: Writer, remaining: bytes)
    requires Blocks(w, data, i, now, remaining) && remaining != [] && |now.buffered| <= BUF_LEN
    ensures var space := BUF_LEN - |now.buffered|;
            if |remaining| >= space then
              var full := Writer(now.taken, now.buffered + remaining[..space]);
              && Blocks(w, data, i + 1, LoadWriter.Flush(full), remaining[space..])
              && forall a: nat | a <= BUF_LEN ::
                   CanFail(w, data, i, a) && PutFails(w, data, i, a) == FlushFails(full, a)
            else Writer(now.taken, now.buffered + remaining) == Put(w, data)
  {
    hide Put, PutFails;
    var d, at := w.buffered + data, i * BUF_LEN;
    var space := BUF_LEN - |now.buffered|;
    assert now.buffered + remaining == d[at..] by { if i == 0 { assert d[0..] == d; } }
    assert now.taken == w.taken + d[..at] by { if i == 0 { assert w.taken + d[..0] == w.taken; } }
    if |remaining| >= space {
      var full := Writer(now.taken, now.buffered + remaining[..space]);
      assert full.buffered == (now.buffered + remaining)[..BUF_LEN];
      assert remaining[space..] == (now.buffered + remaining)[BUF_LEN..];
      assert full.buffered == d[at..at + BUF_LEN] && remaining[space..] == d[at + BUF_LEN..];
      hide Blocks;
      BlockSent(w, data, i, full);
      forall a: nat | a <= BUF_LEN ensures CanFail(w, data, i, a) && PutFails(w, data, i, a) == FlushFails(full, a) {
        BlockFailed(w, data, i, full, a);
      }
    } else {
      PutRest(w, data, i);
    }
  }

  lemma BlockSent(w: Writer, data: bytes, i: nat, full: Writer)
    requires data != [] && (i + 1) * BUF_LEN <= |w.buffered + data|
    requires var d, at := w.buffered + data, i * BUF_LEN;
             full == Writer(w.taken + d[..at], d[at..at + BUF_LEN])
    ensures var d, at := w.buffered + data, i * BUF_LEN;
            Blocks(w, data, i + 1, LoadWriter.Flush(full), d[at + BUF_LEN..])
  {
    var d, at := w.buffered + data, i * BUF_LEN;
    assert d[..at] + d[at..at + BUF_LEN] == d[..at + BUF_LEN];
    AppendAssoc(w.taken, d[..at], d[at..at + BUF_LEN]);
  }

  lemma BlockFailed(w: Writer, data: bytes, i: nat, full: Writer, a: nat)
    requires data != [] && (i + 1) * BUF_LEN <= |w.buffered + data| && a <= BUF_LEN
    requires var d, at := w.buffered + data, i * BUF_LEN;
             full == Writer(w.taken + d[..at], d[at..at + BUF_LEN])
    ensures CanFail(w, data, i, a) && PutFails(w, data, i, a) == FlushFails(full, a)
  {
    var d, at := w.buffered + data, i * BUF_LEN;
    assert d[..at] + d[at..at + BUF_LEN][..a] == d[..at + a];
    AppendAssoc(w.taken, d[..at], d[at..at + BUF_LEN][..a]);
  }

  lemma PutRest(w: Writer, data: bytes, i: nat)
    requires data != [] && i * BUF_LEN <= |w.buffered + data| < (i + 1) * BUF_LEN
    ensures var d, at := w.buffered + data, i * BUF_LEN;
            Put(w, data) == Writer(w.taken + d[..at], d[at..])
  {}

  // ---------------------------------------------------------------------------
  // The ring of requests in flight
  // ---------------------------------------------------------------------------

  datatype Slot = Slot(op: nat, startNs: nat)

  const RING_LEN: nat := 256

  /** The largest capacity within the in-flight limit and the array, and at least one. */
  function RingCap(inflight: nat): (cap: nat)
    ensures 1 <= cap <= RING_LEN && (1 <= inflight ==> cap <= inflight)
    ensures inflight == 0 ==> cap == 1
    ensures inflight > 0 ==> cap == RING_LEN || cap == inflight
  {
    var n := if inflight < 1 then 1 else inflight;
    if n < RING_LEN then n else RING_LEN
  }

  /** The physical index of the i-th entry. */
  function At(head: nat, i: nat, cap: nat): (r: nat)
    requires 0 < cap
    ensures r < cap
  {
    (head + i) % cap
  }

  lemma Wrap(x: nat, cap: nat)
    requires 0 < cap && x < 2 * cap
    ensures x % cap == if x < cap then x else x - cap
  {
    if x >= cap {
      var y := x - cap;
      assert x == y + cap;
      assert (y + cap) % cap == y;
    }
  }

  /** Moving the head one on shifts every index by one; the tail is where the next entry goes. */
  lemma AtNext(head: nat, i: nat, cap: nat)
    requires head < cap && i < cap
    ensures At((head + 1) % cap, i, cap) == At(head, i + 1, cap) == (At(head, i, cap) + 1) % cap
    ensures At(head, i, cap) == if head + i < cap then head + i else head + i - cap
  {
    Wrap(head + 1, cap);
    Wrap(head + i, cap);
    Wrap(At(head, i, cap) + 1, cap);
    Wrap((head + 1) % cap + i, cap);
    if head + i + 1 < 2 * cap {
      Wrap(head + i + 1, cap);
    }
  }

  class Ring {
    const slots: array<Slot>
    const cap: nat
    var head: nat
    var tail: nat
    var count: nat

    ghost predicate Valid()
      reads this
    {
      && slots.Length == RING_LEN && 1 <= cap <= RING_LEN
      && head < cap && count <= cap && tail == At(head, count, cap)
    }

    ghost function Contents(): (q: seq<Slot>)
      requires Valid()
      reads this, slots
      ensures |q| == count
    {
      seq(count, i requires 0 <= i < count reads this, slots requires Valid() => slots[At(head, i, cap)])
    }

    constructor (inflight: nat)
      ensures Valid() && fresh(slots) && cap == RingCap(inflight)
      ensures Contents() == []
    {
      slots := new Slot[RING_LEN](_ => Slot(0, 0));
      cap := RingCap(inflight);
      head, tail, count := 0, 0, 0;
    }

    method Push(s: Slot)
      requires Valid() && count < cap
      modifies this, slots
      ensures Valid() && Contents() == old(Contents()) + [s]
    {
      ghost var was := Contents();
      forall i | 0 <= i < count ensures At(head, i, cap) != tail {
        AtNext(head, i, cap);
        AtNext(head, count, cap);
      }
      slots[tail] := s;
      tail := (tail + 1) % cap;
      count := count + 1;
      AtNext(head, count - 1, cap);
      assert forall i :: 0 <= i < count - 1 ==> Contents()[i] == was[i];
    }

    method Pop() returns (s: Slot)
      requires Valid() && count > 0
      modifies this
      ensures Valid() && old(Contents()) == [s] + Contents()
    {
      ghost var was := Contents();
      s := slots[head];
      ghost var h, n := head, count;
      AtNext(h, 0, cap);
      AtNext(h, n - 1, cap);
      head := (head + 1) % cap;
      count := count - 1;
      hide At;
      forall i: nat | i < count ensures Contents()[i] == was[i + 1] {
        AtNext(h, i, cap);
      }
    }
  }
}
