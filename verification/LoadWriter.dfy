/**
 The load generator's buffered writer as a value: the bytes the stream has taken and
 the bytes still buffered. Data goes out in whole blocks of the buffer's length; a
 block whose write fails may have been taken in part and stays in the buffer.
 */
module LoadWriter {
  import opened Bytes

  const BUF_LEN: nat := 16384

  datatype Writer = Writer(taken: bytes, buffered: bytes)

  const FRESH := Writer([], [])

  /** Bytes written so far, whether taken or buffered. */
  function Written(w: Writer): bytes { w.taken + w.buffered }

  /** writeAll when no flush fails: every whole block goes out, the rest stays. */
  function Put(w: Writer, data: bytes): Writer
  {
    var d := w.buffered + data;
    var k := if data == [] then 0 else |d| / BUF_LEN * BUF_LEN;
    Writer(w.taken + d[..k], d[k..])
  }

  /** The flush of block number i can fail, having taken a of its bytes. */
  predicate CanFail(w: Writer, data: bytes, i: nat, a: nat)
  {
    data != [] && a <= BUF_LEN && (i + 1) * BUF_LEN <= |w.buffered| + |data|
  }

  /** writeAll when it does: the failed block fills the buffer and the data after it is lost. */
  function PutFails(w: Writer, data: bytes, i: nat, a: nat): Writer
    requires CanFail(w, data, i, a)
  {
    var d := w.buffered + data;
    Writer(w.taken + d[..i * BUF_LEN + a], d[i * BUF_LEN..(i + 1) * BUF_LEN])
  }

  function Flush(w: Writer): Writer { Writer(w.taken + w.buffered, []) }

  /** A failed flush keeps the whole buffer, though a of its bytes were taken. */
  function FlushFails(w: Writer, a: nat): Writer
    requires a <= |w.buffered|
  {
    Writer(w.taken + w.buffered[..a], w.buffered)
  }

  /** While nothing fails, bytes are neither lost, repeated nor reordered, and less than a block waits. */
  lemma PutKeepsBytes(w: Writer, data: bytes)
    ensures Written(Put(w, data)) == Written(w) + data
    ensures data != [] || |w.buffered| < BUF_LEN ==> |Put(w, data).buffered| < BUF_LEN
    ensures |w.taken| <= |Put(w, data).taken|
  {
    var d := w.buffered + data;
    var k := if data == [] then 0 else |d| / BUF_LEN * BUF_LEN;
    assert d == d[..k] + d[k..];
    AppendAssoc(w.taken, d[..k], d[k..]);
    AppendAssoc(w.taken, w.buffered, data);
  }

  /** Several writes are one write of all their bytes, so how a command is cut into writes does not matter. */
  lemma PutPut(w: Writer, p: bytes, q: bytes)
    ensures Put(Put(w, p), q) == Put(w, p + q)
  {
    hide Put;
    PutNothing(w);
    PutNothing(Put(w, p));
    if p == [] {
      assert p + q == q;
    } else if q == [] {
      assert p + q == p;
    } else {
      PutTwice(w, p, q);
    }
  }

  lemma PutNothing(w: Writer)
    ensures Put(w, []) == w
  {
    assert w.buffered + [] == w.buffered && w.taken + w.buffered[..0] == w.taken;
  }

  lemma PutTwice(w: Writer, p: bytes, q: bytes)
    requires p != [] && q != []
    ensures Put(Put(w, p), q) == Put(w, p + q)
  {
    var d := w.buffered + p;
    var k := |d| / BUF_LEN * BUF_LEN;
    var m := (|d| - k + |q|) / BUF_LEN * BUF_LEN;
    assert (|d| + |q|) / BUF_LEN * BUF_LEN == k + m;
    AppendAssoc(w.buffered, p, q);
    CutTwice(d, q, k, m);
    AppendAssoc(w.taken, d[..k], (d[k..] + q)[..m]);
  }

  lemma CutTwice(d: bytes, q: bytes, k: nat, m: nat)
    requires k <= |d| && m <= |d| - k + |q|
    ensures (d + q)[..k + m] == d[..k] + (d[k..] + q)[..m]
    ensures (d + q)[k + m..] == (d[k..] + q)[m..]
  {
    assert d + q == d[..k] + (d[k..] + q);
  }

  /** A failure in one of several writes is the same failure in one write of all their bytes. */
  lemma PutPutFails(w: Writer, p: bytes, q: bytes, i: nat, a: nat)
    requires CanFail(Put(w, p), q, i, a)
    ensures exists j: nat :: CanFail(w, p + q, j, a) && PutFails(w, p + q, j, a) == PutFails(Put(w, p), q, i, a)
  {
    var v := Put(w, p);
    var d := w.buffered + p;
    var k := if p == [] then 0 else |d| / BUF_LEN;
    assert v.buffered == d[k * BUF_LEN..] && v.taken == w.taken + d[..k * BUF_LEN];
    var j := k + i;
    var at := i * BUF_LEN;
    assert j * BUF_LEN == k * BUF_LEN + at;
    assert CanFail(w, p + q, j, a);
    assert w.buffered + (p + q) == d + q;
    assert (d + q)[k * BUF_LEN..] == v.buffered + q;
    var rest := v.buffered + q;
    assert (d + q)[..j * BUF_LEN + a] == d[..k * BUF_LEN] + rest[..at + a];
    assert (d + q)[j * BUF_LEN..(j + 1) * BUF_LEN] == rest[at..at + BUF_LEN];
    AppendAssoc(w.taken, d[..k * BUF_LEN], rest[..at + a]);
  }

  /** And a failure in the first of several writes, after which the others are not made. */
  lemma FirstPutFails(w: Writer, p: bytes, q: bytes, i: nat, a: nat)
    requires CanFail(w, p, i, a)
    ensures CanFail(w, p + q, i, a) && PutFails(w, p + q, i, a) == PutFails(w, p, i, a)
  {
    var d := w.buffered + p;
    assert w.buffered + (p + q) == d + q;
    assert (d + q)[..i * BUF_LEN + a] == d[..i * BUF_LEN + a];
    assert (d + q)[i * BUF_LEN..(i + 1) * BUF_LEN] == d[i * BUF_LEN..(i + 1) * BUF_LEN];
  }

  /**
   After a failed write more bytes are taken or buffered than were written before it, unless the
   buffer was already left full: flushing it can no longer give just the earlier data.
   */
  lemma FailedWriteLeavesExtra(w: Writer, data: bytes, i: nat, a: nat)
    requires CanFail(w, data, i, a)
    ensures var v := PutFails(w, data, i, a);
            && |v.buffered| == BUF_LEN
            && |v.taken| == |w.taken| + i * BUF_LEN + a
            && (|w.buffered| < BUF_LEN ==> |Written(v)| > |Written(w)|)
            && (|w.buffered| <= BUF_LEN ==> |Written(v)| >= |Written(w)|)
  {}
}
