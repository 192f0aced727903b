/**
 Byte sequences and the big-endian integer fields that every WormWire message is
 made of. Strings are modelled as the byte sequences that carry them.
 */
module Bytes {

  type byte = b: int | 0 <= b < 256

  type bytes = seq<byte>

  const U32_RANGE: int := 0x1_0000_0000
  const U64_RANGE: int := 0x1_0000_0000_0000_0000

  datatype Option<+T> = None | Some(value: T)

  lemma AppendAssoc<T>(a: seq<T>, b: seq<T>, c: seq<T>)
    ensures (a + b) + c == a + (b + c)
  {}

  /** The four bytes DataView.setUint32(_, n, false) stores: n modulo 2^32, most significant first. */
  function U32(n: int): (r: bytes)
    ensures |r| == 4
  {
    var m := n % U32_RANGE;
    [m / 0x100_0000, m / 0x1_0000 % 0x100, m / 0x100 % 0x100, m % 0x100]
  }

  /** The eight bytes DataView.setBigUint64(_, n, false) stores: n modulo 2^64. */
  function U64(n: int): (r: bytes)
    ensures |r| == 8
  {
    var m := n % U64_RANGE;
    U32(m / U32_RANGE) + U32(m % U32_RANGE)
  }

  function ReadU32(s: bytes): (n: int)
    requires |s| >= 4
    ensures 0 <= n < U32_RANGE
  {
    var a: int, b: int, c: int, d: int := s[0], s[1], s[2], s[3];
    a * 0x100_0000 + b * 0x1_0000 + c * 0x100 + d
  }

  function ReadU64(s: bytes): (n: int)
    requires |s| >= 8
    ensures 0 <= n < U64_RANGE
  {
    ReadU32(s) * U32_RANGE + ReadU32(s[4..])
  }

  lemma Split8(q: int, r: int)
    requires 0 <= r < 0x100
    ensures (q * 0x100 + r) / 0x100 == q && (q * 0x100 + r) % 0x100 == r
  {}

  lemma Split16(q: int, r: int)
    requires 0 <= r < 0x1_0000
    ensures (q * 0x1_0000 + r) / 0x1_0000 == q
  {}

  lemma Split24(q: int, r: int)
    requires 0 <= r < 0x100_0000
    ensures (q * 0x100_0000 + r) / 0x100_0000 == q
  {}

  lemma U32RoundTrip(n: int, rest: bytes)
    ensures ReadU32(U32(n) + rest) == n % U32_RANGE
  {
    var m := n % U32_RANGE;
    assert m == (m / 0x100) * 0x100 + m % 0x100;
    assert m / 0x100 == (m / 0x1_0000) * 0x100 + m / 0x100 % 0x100;
    assert m / 0x1_0000 == (m / 0x100_0000) * 0x100 + m / 0x1_0000 % 0x100;
  }

  lemma U32OfRead(s: bytes)
    requires |s| >= 4
    ensures U32(ReadU32(s)) == s[..4]
  {
    var a: int, b: int, c: int, d: int := s[0], s[1], s[2], s[3];
    var n := ReadU32(s);
    Split8(a * 0x1_0000 + b * 0x100 + c, d);
    Split8(a * 0x100 + b, c);
    Split8(a, b);
    Split16(a * 0x100 + b, c * 0x100 + d);
    Split24(a, b * 0x1_0000 + c * 0x100 + d);
    assert n / 0x100 == a * 0x1_0000 + b * 0x100 + c && n % 0x100 == d;
    assert n / 0x1_0000 == a * 0x100 + b && n / 0x100_0000 == a;
    assert n % U32_RANGE == n;
  }

  lemma U64RoundTrip(n: int, rest: bytes)
    ensures ReadU64(U64(n) + rest) == n % U64_RANGE
  {
    var m := n % U64_RANGE;
    var hi, lo := m / U32_RANGE, m % U32_RANGE;
    assert U64(n) + rest == U32(hi) + (U32(lo) + rest);
    assert (U64(n) + rest)[4..] == U32(lo) + rest;
    U32RoundTrip(hi, U32(lo) + rest);
    U32RoundTrip(lo, rest);
  }

  /** A length-prefixed field: [4B length][bytes]. */
  function Field(s: bytes): (r: bytes)
    ensures |r| == 4 + |s|
  {
    U32(|s|) + s
  }

  /** Reads one length-prefixed field and returns it with the bytes that follow. */
  function ReadField(s: bytes): (r: Option<(bytes, bytes)>)
    ensures r.Some? ==> |r.value.0| + |r.value.1| + 4 == |s|
  {
    if |s| < 4 || |s| < 4 + ReadU32(s) then None
    else Some((s[4..4 + ReadU32(s)], s[4 + ReadU32(s)..]))
  }

  lemma FieldRoundTrip(s: bytes, rest: bytes)
    requires |s| < U32_RANGE
    ensures ReadField(Field(s) + rest) == Some((s, rest))
  {
    hide U32, ReadU32;
    U32RoundTrip(|s|, s + rest);
    AppendAssoc(U32(|s|), s, rest);
    var all := U32(|s|) + (s + rest);
    assert all[4..4 + |s|] == s && all[4 + |s|..] == rest;
  }

  function Concat(chunks: seq<bytes>): bytes
  {
    if chunks == [] then [] else chunks[0] + Concat(chunks[1..])
  }

  lemma {:induction false} ConcatAppend(a: seq<bytes>, b: seq<bytes>)
    ensures Concat(a + b) == Concat(a) + Concat(b)
  {
    if a == [] {
      assert a + b == b;
    } else {
      ConcatAppend(a[1..], b);
      ConcatCons(a[0], a[1..]);
      ConcatCons(a[0], a[1..] + b);
      assert a + b == [a[0]] + (a[1..] + b) && a == [a[0]] + a[1..];
      hide Concat;
      AppendAssoc(a[0], Concat(a[1..]), Concat(b));
    }
  }

  lemma {:induction false} ConcatCons(x: bytes, b: seq<bytes>)
    ensures Concat([x] + b) == x + Concat(b)
  {
    assert ([x] + b)[1..] == b;
  }

  /** Concatenation up to the next chunk, and from there on. */
  lemma {:induction false} ConcatStep(chunks: seq<bytes>, k: nat)
    requires k < |chunks|
    ensures Concat(chunks[..k + 1]) == Concat(chunks[..k]) + chunks[k]
    ensures Concat(chunks) == Concat(chunks[..k + 1]) + Concat(chunks[k + 1..])
  {
    ConcatCons(chunks[k], []);
    assert Concat([]) == [];
    hide Concat;
    assert [chunks[k]] + [] == [chunks[k]];
    assert chunks[..k + 1] == chunks[..k] + [chunks[k]];
    ConcatAppend(chunks[..k], [chunks[k]]);
    assert chunks == chunks[..k + 1] + chunks[k + 1..];
    ConcatAppend(chunks[..k + 1], chunks[k + 1..]);
  }
}
