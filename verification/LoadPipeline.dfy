/**
 `workerMain` as it is written, over the buffers and the ring of `LoadBuffers`, seen by
 one thread: the other threads show only in the shared counter, which may have moved
 on between two calls. `LoadWorkers` is a model of the interleaved threads.
 */
module LoadPipeline {
  import opened Bytes
  import opened Frames
  import opened LoadWriter
  import opened LoadBuffers

  /** std.atomic.Value(usize) as one thread sees it. */
  class Counter {
    var value: nat

    method FetchAdd() returns (v: nat)
      modifies this
      ensures old(value) <= v && value == v + 1
    {
      var others: nat :| others >= 0;
      v := value + others;
      value := v + 1;
    }
  }

  /** nowNs, or 0 where latency is not measured. */
  method StartTime(measure: bool) returns (t: nat)
    ensures !measure ==> t == 0
  {
    t := 0;
    if measure {
      t :| t >= 0;
    }
  }

  /** The worker's local counts, and the flag it raises for a dead connection. */
  datatype Counts = Counts(succeeded: nat, failed: nat, broken: bool)

  /**
   What happened, for the proof: operations claimed; operations whose command was written, the
   clock as read for each just before, and the commands; operations answered, and the frames
   consumed; whether a write or read failed; whether the counter was found past the end.
   */
  datatype History = History(claims: seq<nat>, ops: seq<nat>, starts: seq<nat>, sent: seq<Frame>,
                             answered: seq<nat>, got: seq<Frame>, hurt: bool, exhausted: bool)

  const NOTHING := History([], [], [], [], [], [], false, false)

  ghost function Joined(a: History, b: History): History
  {
    History(a.claims + b.claims, a.ops + b.ops, a.starts + b.starts, a.sent + b.sent,
            a.answered + b.answered, a.got + b.got, a.hurt || b.hurt, a.exhausted || b.exhausted)
  }

  /** The operations of the slots in flight. */
  ghost function Ops(q: seq<Slot>): seq<nat> { seq(|q|, i requires 0 <= i < |q| => q[i].op) }

  /** The slots of operations started at these times. */
  ghost function Slots(ops: seq<nat>, starts: seq<nat>): seq<Slot>
    requires |ops| == |starts|
  {
    seq(|ops|, i requires 0 <= i < |ops| => Slot(ops[i], starts[i]))
  }

  /** The clock is read only when latency is measured. */
  predicate Timed(measure: bool, starts: seq<nat>) { forall i :: 0 <= i < |starts| ==> measure || starts[i] == 0 }

  /** now -| start */
  function Since(now: nat, start: nat): nat { if now < start then 0 else now - start }

  lemma OpsAppend(a: seq<Slot>, b: seq<Slot>)
    ensures Ops(a + b) == Ops(a) + Ops(b)
  {}

  lemma OpsOne(s: Slot)
    ensures Ops([s]) == [s.op]
  {}

  predicate Below(ops: seq<nat>, total: nat) { forall i :: 0 <= i < |ops| ==> ops[i] < total }

  // ---------------------------------------------------------------------------
  // Writing
  // ---------------------------------------------------------------------------

  /** writeWorkloadCommand: some command, in however many writes; the first that fails ends it. */
  method WriteCommand(writer: BufferedWriter) returns (ok: bool, f: Frame, ghost i: nat, ghost a: nat)
    requires writer.Valid()
    modifies writer, writer.buf, writer.stream
    ensures writer.Valid()
    ensures ok ==> writer.Abs() == Put(old(writer.Abs()), Encode(f))
    ensures !ok ==> CanFail(old(writer.Abs()), Encode(f), i, a)
                    && writer.Abs() == PutFails(old(writer.Abs()), Encode(f), i, a)
  {
    hide Put, PutFails, CanFail, Encode;
    ghost var w := writer.Abs();
    var pieces;
    f, pieces := AnyCommand();
    ok, i, a := true, 0, 0;
    PutNothing(w);
    assert pieces[..0] == [] && Concat([]) == [];
    for k := 0 to |pieces|
      invariant writer.Valid() && ok
      invariant writer.Abs() == Put(w, Concat(pieces[..k]))
    {
      ok, i, a := writer.WriteAll(pieces[k]);
      ConcatStep(pieces, k);
      if !ok {
        i := PieceFails(w, pieces, k, i, a);
        return;
      }
      PutPut(w, Concat(pieces[..k]), pieces[k]);
    }
    assert pieces[..|pieces|] == pieces;
  }

  /** A command and the pieces it is written in. */
  method AnyCommand() returns (f: Frame, pieces: seq<bytes>)
    ensures Concat(pieces) == Encode(f)
  {
    var code: byte :| 0 <= code < 256;
    var none: bytes := [];
    var payload: bytes :| |payload| < U32_RANGE by {
      assert |none| < U32_RANGE;
    }
    f := RawFrame.Frame(code, payload);
    pieces :| Concat(pieces) == Encode(f) by {
      assert Concat([Encode(f)]) == Encode(f) + Concat([]);
    }
  }

  /** A failed piece is a failure of the whole command's write. */
  lemma PieceFails(w: Writer, pieces: seq<bytes>, k: nat, i: nat, a: nat) returns (j: nat)
    requires k < |pieces| && CanFail(Put(w, Concat(pieces[..k])), pieces[k], i, a)
    ensures CanFail(w, Concat(pieces), j, a)
    ensures PutFails(w, Concat(pieces), j, a) == PutFails(Put(w, Concat(pieces[..k])), pieces[k], i, a)
  {
    hide Put, PutFails, CanFail;
    ConcatStep(pieces, k);
    var front := Concat(pieces[..k]);
    PutPutFails(w, front, pieces[k], i, a);
    j :| CanFail(w, front + pieces[k], j, a)
         && PutFails(w, front + pieces[k], j, a) == PutFails(Put(w, front), pieces[k], i, a);
    FirstPutFails(w, front + pieces[k], Concat(pieces[k + 1..]), j, a);
  }

  lemma {:induction false} SnocFrame(start: bytes, fs: seq<Frame>, f: Frame)
    ensures start + EncodeAll(fs) + Encode(f) == start + EncodeAll(fs + [f])
    ensures EncodeAll([f]) == Encode(f)
  {
    hide Encode, EncodeAll;
    EncodeAllAppend(fs, [f]);
    EncodeOne(f);
    AppendAssoc(start, EncodeAll(fs), Encode(f));
  }

  /** The fill loop: up to the ring's capacity, while operations are left and writes succeed. */
  method FillPipeline(counter: Counter, total: nat, measure: bool, ring: Ring, writer: BufferedWriter)
    returns (failed: nat, ghost h: History)
    requires ring.Valid() && ring.count == 0 && writer.Valid()
    modifies counter, ring, ring.slots, writer, writer.buf, writer.stream
    ensures ring.Valid() && writer.Valid()
    ensures Below(h.claims, total) && Below(Ops(ring.Contents()), total) && h.answered == [] && h.got == []
    ensures |h.claims| == failed + ring.count && h.ops == Ops(ring.Contents()) && |h.sent| == |h.ops| == |h.starts|
    ensures ring.Contents() == Slots(h.ops, h.starts) && Timed(measure, h.starts)
    ensures !h.hurt ==> failed == 0 && h.ops == h.claims
    ensures !h.hurt ==> Written(writer.Abs()) == old(Written(writer.Abs())) + EncodeAll(h.sent)
    ensures !h.hurt && !h.exhausted ==> ring.count == ring.cap
    ensures h.exhausted ==> total < counter.value
  {
    hide Encode, EncodeAll, Put, PutFails, CanFail;
    failed, h := 0, NOTHING;
    EncodeNone();
    ghost var start := Written(writer.Abs());
    assert start + [] == start;
    while ring.count < ring.cap
      invariant ring.Valid() && writer.Valid() && failed == 0
      invariant h == NOTHING.(claims := h.ops, ops := Ops(ring.Contents()), starts := h.starts, sent := h.sent)
      invariant |h.sent| == |h.ops| == |h.starts| && Below(h.ops, total)
      invariant ring.Contents() == Slots(h.ops, h.starts) && Timed(measure, h.starts)
      invariant Written(writer.Abs()) == start + EncodeAll(h.sent)
      decreases ring.cap - ring.count
    {
      var op := counter.FetchAdd();
      if op >= total {
        h := h.(exhausted := true);
        break;
      }
      h := h.(claims := h.claims + [op]);
      var t := StartTime(measure);
      ghost var before := writer.Abs();
      var ok, f, i, a := WriteCommand(writer);
      if !ok {
        failed, h := failed + 1, h.(hurt := true);
        break;
      }
      PutKeepsBytes(before, Encode(f));
      SnocFrame(start, h.sent, f);
      OpsAppend(ring.Contents(), [Slot(op, t)]);
      OpsOne(Slot(op, t));
      ring.Push(Slot(op, t));
      h := h.(ops := h.ops + [op], starts := h.starts + [t], sent := h.sent + [f]);
    }
  }

  // ---------------------------------------------------------------------------
  // Reading
  // ---------------------------------------------------------------------------

  /** Only the slots of these operations may differ, and none if latency is not measured. */
  twostate predicate StoresOnly(latencies: array<nat>, measure: bool, ops: seq<nat>)
    reads latencies
  {
    forall k :: 0 <= k < latencies.Length && latencies[k] != old(latencies[k]) ==> measure && k in ops
  }

  /** The response of the oldest request, and its latency; on a failure everything in flight is lost. */
  method TakeResponse(ring: Ring, reader: BufferedReader, transfer: bool, measure: bool, latencies: array<nat>)
    returns (c: Counts, ghost op: nat, ghost f: Frame, ghost now: nat)
    requires ring.Valid() && ring.count > 0 && reader.Valid()
    requires measure ==> Below(Ops(ring.Contents()), latencies.Length)
    modifies ring, reader, reader.buf, reader.stream, latencies
    ensures ring.Valid() && reader.Valid() && old(Ops(ring.Contents())) == [op] + Ops(ring.Contents())
    ensures c.succeeded + c.failed == if c.broken then old(ring.count) else 1
    ensures c.succeeded == if c.broken then 0 else CountWon(transfer, [f])
    ensures !c.broken ==> old(reader.Unread()) == Encode(f) + reader.Unread()
    ensures StoresOnly(latencies, measure, if c.broken then [] else [op])
    ensures measure && !c.broken ==>
              op < latencies.Length && latencies[op] == Since(now, old(ring.Contents())[0].startNs)
  {
    hide Encode, BadHeader, Succeeds, BufferedReader.Unread;
    ghost var q := ring.Contents();
    var slot := ring.Pop();
    assert q[0] == slot;
    op, now := slot.op, 0;
    OpsAppend([slot], ring.Contents());
    OpsOne(slot);
    ghost var all := reader.Unread();
    var status, ok := ConsumeResponse(reader, transfer);
    f := RawFrame.Frame(0, []);
    if status != Fine {
      c := Counts(0, ring.count + 1, true);
      return;
    }
    f := TryConsume(all).frame;
    if measure {
      var read := StartTime(true);
      now := read;
      assert Ops(q)[0] == slot.op;
      latencies[slot.op] := Since(read, slot.startNs);
    }
    c := if ok then Counts(1, 0, false) else Counts(0, 1, false);
    CountSnoc(transfer, [], f);
    assert [] + [f] == [f];
  }

  /** A replacement for the request just answered, if an operation is left. */
  method Replace(counter: Counter, total: nat, measure: bool, ring: Ring, writer: BufferedWriter)
    returns (failed: nat, broken: bool, ghost h: History)
    requires ring.Valid() && ring.count < ring.cap && writer.Valid()
    modifies counter, ring, ring.slots, writer, writer.buf, writer.stream
    ensures ring.Valid() && writer.Valid() && counter.value > old(counter.value)
    ensures Below(h.claims, total) && h.answered == [] && h.got == [] && |h.sent| == |h.ops|
    ensures h.claims != [] ==> old(counter.value) < total
    ensures old(ring.count) + |h.claims| == failed + if broken then 0 else ring.count
    ensures !broken ==> Ops(ring.Contents()) == old(Ops(ring.Contents())) + h.ops
    ensures |h.starts| == |h.ops| && Timed(measure, h.starts)
    ensures !broken ==> ring.Contents() == old(ring.Contents()) + Slots(h.ops, h.starts)
    ensures broken ==> h.hurt && h.ops == []
    ensures h.ops <= h.claims && |h.claims| <= 1
    ensures !h.hurt ==> failed == 0 && h.ops == h.claims && (h.claims == [] ==> h.exhausted)
    ensures !h.hurt && old(writer.Abs()).buffered == [] ==>
              writer.Abs() == Writer(old(writer.Abs()).taken + EncodeAll(h.sent), [])
    ensures h.exhausted ==> total < counter.value
  {
    hide Encode, EncodeAll, Put, PutFails, CanFail;
    failed, broken, h := 0, false, NOTHING;
    EncodeNone();
    ghost var w, q := writer.Abs(), ring.Contents();
    assert w.taken + [] == w.taken && Ops(q) + [] == Ops(q) && q + Slots([], []) == q;
    var op := counter.FetchAdd();
    if op >= total {
      h := h.(exhausted := true);
      return;
    }
    h := h.(claims := [op]);
    var t := StartTime(measure);
    var ok, f, i, a := WriteCommand(writer);
    if !ok {
      failed, h := 1, h.(hurt := true);
      return;
    }
    PutKeepsBytes(w, Encode(f));
    ok, a := writer.Flush();
    if !ok {
      failed, broken, h := ring.count + 1, true, h.(hurt := true);
      return;
    }
    EncodeOne(f);
    assert w.buffered == [] ==> Written(w) == w.taken;
    OpsAppend(q, [Slot(op, t)]);
    OpsOne(Slot(op, t));
    ring.Push(Slot(op, t));
    h := h.(ops := [op], starts := [t], sent := [f]);
  }

  /** One turn of the main loop; a broken one ends it. */
  method Turn(counter: Counter, total: nat, transfer: bool, measure: bool, latencies: array<nat>,
              ring: Ring, reader: BufferedReader, writer: BufferedWriter)
    returns (c: Counts, ghost h: History)
    requires ring.Valid() && ring.count > 0 && reader.Valid() && writer.Valid() && reader.buf != writer.buf
    requires Below(Ops(ring.Contents()), total) && (measure ==> total <= latencies.Length)
    modifies counter, ring, ring.slots, reader, reader.buf, reader.stream, writer, writer.buf, writer.stream, latencies
    ensures ring.Valid() && reader.Valid() && writer.Valid()
    ensures Below(h.claims, total) && |h.sent| == |h.ops| && StoresOnly(latencies, measure, h.answered)
    ensures old(ring.count) + |h.claims| == c.succeeded + c.failed + if c.broken then 0 else ring.count
    ensures c.succeeded == CountWon(transfer, h.got)
    ensures c.broken ==> h.hurt
    ensures !c.broken ==> h.answered + Ops(ring.Contents()) == old(Ops(ring.Contents())) + h.ops
    ensures !c.broken ==> Below(Ops(ring.Contents()), total)
    ensures h.answered <= old(Ops(ring.Contents()))
    ensures !h.hurt ==> old(reader.Unread()) == EncodeAll(h.got) + reader.Unread()
    ensures !h.hurt ==> |h.got| == |h.answered| && h.ops == h.claims && (h.ops == [] ==> h.exhausted)
    ensures !h.hurt && old(writer.Abs()).buffered == [] ==>
              writer.Abs() == Writer(old(writer.Abs()).taken + EncodeAll(h.sent), [])
    ensures h.exhausted ==> total < counter.value
    ensures counter.value >= old(counter.value)
    ensures !c.broken ==> counter.value > old(counter.value)
    ensures !c.broken ==> old(counter.value) < total || ring.count < old(ring.count)
  {
    hide Encode, EncodeAll, BufferedReader.Unread, BufferedWriter.Abs;
    ghost var q := Ops(ring.Contents());
    ghost var f, op, now;
    c, op, f, now := TakeResponse(ring, reader, transfer, measure, latencies);
    ghost var rest := Ops(ring.Contents());
    assert q[0] == op && Below(rest, total) by { BelowTail(q, op, rest, total); }
    h := NOTHING;
    if c.broken {
      h := h.(hurt := true);
      return;
    }
    var failed, broken;
    failed, broken, h := Replace(counter, total, measure, ring, writer);
    c := Counts(c.succeeded, c.failed + failed, broken);
    h := h.(got := [f], answered := [op]);
    EncodeOne(f);
    AppendAssoc([op], rest, h.ops);
    BelowAppend(rest, h.ops, total);
  }

  lemma BelowTail(q: seq<nat>, op: nat, rest: seq<nat>, total: nat)
    requires Below(q, total) && q == [op] + rest
    ensures q[0] == op && Below(rest, total)
  {
    forall i | 0 <= i < |rest| ensures rest[i] < total { assert rest[i] == q[i + 1]; }
  }

  lemma BelowAppend(a: seq<nat>, b: seq<nat>, total: nat)
    requires Below(a, total) && Below(b, total)
    ensures Below(a + b, total)
  {}

  /** The main loop, which ends: each turn claims one of the operations left or shortens the ring. */
  method DrainPipeline(counter: Counter, total: nat, transfer: bool, measure: bool, latencies: array<nat>,
                       ring: Ring, reader: BufferedReader, writer: BufferedWriter)
    returns (c: Counts, ghost h: History)
    requires ring.Valid() && reader.Valid() && writer.Valid() && reader.buf != writer.buf
    requires Below(Ops(ring.Contents()), total) && (measure ==> total <= latencies.Length)
    modifies counter, ring, ring.slots, reader, reader.buf, reader.stream, writer, writer.buf, writer.stream, latencies
    ensures reader.Valid() && writer.Valid() && counter.value >= old(counter.value)
    ensures Below(h.claims, total) && |h.sent| == |h.ops| && StoresOnly(latencies, measure, h.answered)
    ensures old(ring.count) + |h.claims| == c.succeeded + c.failed
    ensures c.succeeded == CountWon(transfer, h.got)
    ensures c.broken ==> h.hurt
    ensures h.answered <= old(Ops(ring.Contents())) + h.ops
    ensures !h.hurt ==> h.answered == old(Ops(ring.Contents())) + h.ops && h.ops == h.claims
    ensures !h.hurt ==> old(reader.Unread()) == EncodeAll(h.got) + reader.Unread() && |h.got| == |h.answered|
    ensures !h.hurt && old(writer.Abs()).buffered == [] ==>
              writer.Abs() == Writer(old(writer.Abs()).taken + EncodeAll(h.sent), [])
    ensures !h.hurt && old(ring.count) > 0 ==> h.exhausted
    ensures h.exhausted ==> total < counter.value
  {
    hide Encode, EncodeAll, BufferedReader.Unread, BufferedWriter.Abs;
    c, h := Counts(0, 0, false), NOTHING;
    EncodeNone();
    ghost var w, unread, n, first := writer.Abs(), reader.Unread(), ring.count, Ops(ring.Contents());
    assert w.taken + [] == w.taken && [] + unread == unread && [] + first == first == first + [];
    while ring.count > 0
      invariant ring.Valid() && reader.Valid() && writer.Valid() && !c.broken
      invariant counter.value >= old(counter.value)
      invariant Below(Ops(ring.Contents()), total) && Below(h.claims, total) && |h.sent| == |h.ops|
      invariant StoresOnly(latencies, measure, h.answered)
      invariant n + |h.claims| == c.succeeded + c.failed + ring.count
      invariant c.succeeded == CountWon(transfer, h.got)
      invariant h.answered + Ops(ring.Contents()) == first + h.ops
      invariant !h.hurt ==> unread == EncodeAll(h.got) + reader.Unread() && |h.got| == |h.answered| && h.ops == h.claims
      invariant !h.hurt && w.buffered == [] ==> writer.Abs() == Writer(w.taken + EncodeAll(h.sent), [])
      invariant !h.hurt && ring.count == 0 && n > 0 ==> h.exhausted
      invariant h.exhausted ==> total < counter.value
      decreases if counter.value < total then total - counter.value else 0, ring.count
    {
      ghost var now := Ops(ring.Contents());
      var t;
      ghost var more;
      t, more := Turn(counter, total, transfer, measure, latencies, ring, reader, writer);
      c := Counts(c.succeeded + t.succeeded, c.failed + t.failed, t.broken);
      JoinFrames(w.taken, h.sent, more.sent);
      CountAppend(transfer, h.got, more.got);
      MoveFrames(h.got, more.got, reader.Unread());
      BelowAppend(h.claims, more.claims, total);
      if t.broken {
        Prefixes(h.answered, more.answered, now, first, h.ops, more.ops);
        h := Joined(h, more);
        return;
      }
      TurnOrder(h.answered, more.answered, now, Ops(ring.Contents()), first, h.ops, more.ops);
      h := Joined(h, more);
    }
  }

  lemma TurnOrder(a: seq<nat>, b: seq<nat>, now: seq<nat>, next: seq<nat>, first: seq<nat>, ops: seq<nat>,
                  more: seq<nat>)
    requires a + now == first + ops && b + next == now + more
    ensures (a + b) + next == first + (ops + more)
  {
    AppendAssoc(a, b, next);
    AppendAssoc(a, now, more);
    AppendAssoc(first, ops, more);
  }

  lemma Prefixes(a: seq<nat>, b: seq<nat>, now: seq<nat>, first: seq<nat>, ops: seq<nat>, more: seq<nat>)
    requires a + now == first + ops && b <= now
    ensures a + b <= first + (ops + more)
  {
    assert now == b + now[|b|..];
    AppendAssoc(a, b, now[|b|..]);
    AppendAssoc(first, ops, more);
  }

  lemma {:induction false} MoveFrames(a: seq<Frame>, b: seq<Frame>, rest: bytes)
    ensures EncodeAll(a) + (EncodeAll(b) + rest) == EncodeAll(a + b) + rest
  {
    hide EncodeAll;
    EncodeAllAppend(a, b);
    AppendAssoc(EncodeAll(a), EncodeAll(b), rest);
  }

  lemma {:induction false} JoinFrames(wrote: bytes, a: seq<Frame>, b: seq<Frame>)
    ensures wrote + EncodeAll(a) + EncodeAll(b) == wrote + EncodeAll(a + b)
  {
    hide EncodeAll;
    EncodeAllAppend(a, b);
    AppendAssoc(wrote, EncodeAll(a), EncodeAll(b));
  }

  /** What the fill did, before anything was answered, and then the drain. */
  lemma {:induction false} FillThenDrain(wrote: bytes, a: History, b: History, total: nat)
    requires a.answered == [] && a.got == [] && |a.sent| == |a.ops| && |b.sent| == |b.ops|
    requires Below(a.claims, total) && Below(b.claims, total)
    ensures var h := Joined(a, b);
            h.answered == b.answered && h.got == b.got && h.ops == a.ops + b.ops && h.claims == a.claims + b.claims
            && h.hurt == (a.hurt || b.hurt) && |h.sent| == |h.ops| && Below(h.claims, total)
            && wrote + EncodeAll(a.sent) + EncodeAll(b.sent) == wrote + EncodeAll(h.sent)
  {
    hide EncodeAll;
    JoinFrames(wrote, a.sent, b.sent);
    BelowAppend(a.claims, b.claims, total);
  }

  /** Fill, flush and drain on an empty ring and fresh buffers. */
  method RunPipeline(counter: Counter, total: nat, transfer: bool, measure: bool, latencies: array<nat>,
                     ring: Ring, reader: BufferedReader, writer: BufferedWriter)
    returns (c: Counts, ghost h: History)
    requires ring.Valid() && ring.count == 0 && reader.Valid() && writer.Valid() && reader.buf != writer.buf
    requires writer.Abs().buffered == [] && (measure ==> total <= latencies.Length)
    modifies counter, ring, ring.slots, reader, reader.buf, reader.stream, writer, writer.buf, writer.stream, latencies
    ensures reader.Valid() && writer.Valid()
    ensures Below(h.claims, total) && |h.claims| == c.succeeded + c.failed
    ensures c.succeeded == CountWon(transfer, h.got)
    ensures h.answered <= h.ops && |h.sent| == |h.ops| && StoresOnly(latencies, measure, h.answered)
    ensures c.broken ==> h.hurt
    ensures !h.hurt ==> h.answered == h.ops == h.claims && total < counter.value
    ensures !h.hurt ==> writer.Abs() == Writer(old(writer.Abs()).taken + EncodeAll(h.sent), [])
    ensures !h.hurt ==> old(reader.Unread()) == EncodeAll(h.got) + reader.Unread() && |h.got| == |h.sent|
  {
    hide Encode, EncodeAll, BufferedReader.Unread, BufferedWriter.Abs;
    ghost var w := writer.Abs();
    assert Written(w) == w.taken;
    var filled;
    filled, h := FillPipeline(counter, total, measure, ring, writer);
    c := Counts(0, filled, false);
    ghost var written := Written(writer.Abs());
    var ok, a := writer.Flush();
    if !ok {
      c, h := Counts(0, filled + ring.count, true), h.(hurt := true);
      return;
    }
    assert writer.Abs() == Writer(written, []);
    ghost var before := h;
    assert !before.hurt ==> written == w.taken + EncodeAll(before.sent);
    var d, more := DrainPipeline(counter, total, transfer, measure, latencies, ring, reader, writer);
    c, h := Counts(d.succeeded, filled + d.failed, d.broken), Joined(h, more);
    FillThenDrain(w.taken, before, more, total);
  }

  /**
   The whole worker. It ends; on every path its claims are its successes plus its failures;
   latencies are stored only for operations answered, which come in the order written; and
   without an error the counter is used up, one frame was consumed for each command,
   and the stream took exactly the commands.
   */
  method WorkerMain(counter: Counter, total: nat, inflight: nat, transfer: bool, measure: bool, latencies: array<nat>,
                    input: InStream, output: OutStream)
    returns (c: Counts, reader: BufferedReader, writer: BufferedWriter, ghost h: History)
    requires measure ==> total <= latencies.Length
    modifies counter, input, output, latencies
    ensures reader.Valid() && writer.Valid() && reader.stream == input && writer.stream == output
    ensures Below(h.claims, total) && |h.claims| == c.succeeded + c.failed
    ensures c.succeeded == CountWon(transfer, h.got)
    ensures h.answered <= h.ops && |h.sent| == |h.ops| && StoresOnly(latencies, measure, h.answered)
    ensures c.broken ==> h.hurt
    ensures !h.hurt ==> h.answered == h.ops == h.claims && total < counter.value
    ensures !h.hurt ==> output.sent == old(output.sent) + EncodeAll(h.sent)
    ensures !h.hurt ==> old(input.ahead) == EncodeAll(h.got) + reader.Unread() && |h.got| == |h.sent|
  {
    hide EncodeAll, BufferedReader.Unread;
    writer := new BufferedWriter(output);
    reader := new BufferedReader(input);
    var ring := new Ring(inflight);
    c, h := RunPipeline(counter, total, transfer, measure, latencies, ring, reader, writer);
  }

  /**
   If the peer sends exactly one frame for each command, a worker that ends without an error leaves
   nothing unread.
   */
  lemma {:induction false} NothingLeftOver(got: seq<Frame>, replies: seq<Frame>, unread: bytes)
    requires EncodeAll(replies) == EncodeAll(got) + unread && |got| == |replies|
    ensures got == replies && unread == []
  {
    hide Encode, TryConsume, EncodeAll;
    if got == [] {
      EncodeNone();
      assert [] + unread == unread;
    } else {
      var f, g := got[0], replies[0];
      assert got == [f] + got[1..] && replies == [g] + replies[1..];
      FirstFrame(f, got[1..], unread);
      FirstFrame(g, replies[1..], []);
      assert EncodeAll(replies) + [] == EncodeAll(replies);
      assert EncodeAll(replies[1..]) + [] == EncodeAll(replies[1..]);
      NothingLeftOver(got[1..], replies[1..], unread);
    }
  }

  lemma {:induction false} FirstFrame(f: Frame, fs: seq<Frame>, rest: bytes)
    ensures TryConsume(EncodeAll([f] + fs) + rest) == Got(f, EncodeAll(fs) + rest)
  {
    hide Encode, TryConsume;
    ConsEncoded(f, fs, rest);
    ConsumeEncoded(f, EncodeAll(fs) + rest);
  }
}
