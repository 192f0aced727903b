/**
 The signed capability token. `Layout` is the concatenation form; `EncodeSct` is
 the encoder as written, which sums the size in one loop and fills the buffer in
 another. The Ed25519 signature is some function of the payload.
 */
module SctToken {
  import opened Bytes
  import opened WireEncoder

  /** op and kind are written into a Uint8Array, which keeps them modulo 256. */
  datatype Capability = Capability(op: int, kind: int, pattern: bytes)

  datatype Claims = Claims(iat: int, exp: int, sub: bytes, jti: int, caps: seq<Capability>)

  const SIGNATURE_LEN := 64

  function CapBytes(cap: Capability): (r: bytes)
    ensures |r| == 6 + |cap.pattern|
  {
    [cap.op % 256, cap.kind % 256] + Field(cap.pattern)
  }

  function CapsOf(caps: seq<Capability>): bytes
  {
    if caps == [] then [] else CapBytes(caps[0]) + CapsOf(caps[1..])
  }

  /** The payload of `token` in scripts/test-security.ts, piece after piece. */
  function Layout(c: Claims): bytes
  {
    U64(c.iat) + (U64(c.exp) + (Field(c.sub) + (U32(c.jti) + ([|c.caps| % 256] + CapsOf(c.caps)))))
  }

  // ---------------------------------------------------------------------------
  // The encoder in place
  // ---------------------------------------------------------------------------

  /** The two halves written for a time are its eight bytes. */
  lemma TwoWords(t: int)
    ensures U32(t / U32_RANGE) + U32(t % U32_RANGE) == U64(t)
  {
    var m := t % U64_RANGE;
    assert m / U32_RANGE == t / U32_RANGE % U32_RANGE;
    assert m % U32_RANGE == t % U32_RANGE;
    WordKeepsLow(t / U32_RANGE);
    hide U32;
  }

  lemma WordKeepsLow(n: int)
    ensures U32(n) == U32(n % U32_RANGE)
  {
    assert n % U32_RANGE % U32_RANGE == n % U32_RANGE;
  }

  /** A time below 2^53, split into two words, reads back as that time. */
  lemma TimeReassembles(t: int, rest: bytes)
    requires 0 <= t < 0x20_0000_0000_0000
    ensures ReadU64(U32(t / U32_RANGE) + U32(t % U32_RANGE) + rest) == t
  {
    hide U32, U64, ReadU64;
    TwoWords(t);
    U64RoundTrip(t, rest);
  }

  /** Math.floor(t / 2^32), then t >>> 0 */
  method PutTime(a: array<byte>, pos: nat, t: int) returns (next: nat)
    requires pos + 8 <= a.Length
    modifies a
    ensures next == pos + 8
    ensures a[..next] == old(a[..pos]) + U64(t)
  {
    hide U32, U64;
    next := PutU32(a, pos, t / U32_RANGE);
    next := PutU32(a, next, t % U32_RANGE);
    AppendAssoc(old(a[..pos]), U32(t / U32_RANGE), U32(t % U32_RANGE));
    TwoWords(t);
  }

  method PutCap(a: array<byte>, pos: nat, cap: Capability) returns (next: nat)
    requires pos + 6 + |cap.pattern| <= a.Length
    modifies a
    ensures next == pos + 6 + |cap.pattern|
    ensures a[..next] == old(a[..pos]) + CapBytes(cap)
  {
    hide Field;
    next := PutByte(a, pos, cap.op % 256);
    next := PutByte(a, next, cap.kind % 256);
    next := PutField(a, next, cap.pattern);
    ghost var was, two := old(a[..pos]), [(cap.op % 256) as byte, cap.kind % 256];
    assert was + [cap.op % 256] + [cap.kind % 256] == was + two;
    AppendAssoc(was, two, Field(cap.pattern));
  }

  lemma {:induction false} CapsSnoc(caps: seq<Capability>, cap: Capability)
    ensures CapsOf(caps + [cap]) == CapsOf(caps) + CapBytes(cap)
  {
    hide CapBytes;
    if caps == [] {
      assert caps + [cap] == [cap];
      assert CapsOf([cap]) == CapBytes(cap) + CapsOf([]);
    } else {
      CapsSnoc(caps[1..], cap);
      assert (caps + [cap])[1..] == caps[1..] + [cap];
      AppendAssoc(CapBytes(caps[0]), CapsOf(caps[1..]), CapBytes(cap));
    }
  }

  lemma {:induction false} CapsRoom(caps: seq<Capability>, i: nat)
    requires i < |caps|
    ensures |CapsOf(caps[..i])| + 6 + |caps[i].pattern| <= |CapsOf(caps)|
  {
    hide CapBytes;
    if i == 0 {
      assert caps[..0] == [];
    } else {
      CapsRoom(caps[1..], i - 1);
      assert caps[..i][1..] == caps[1..][..i - 1];
    }
  }

  /** The size loop. */
  method PayloadSize(sub: bytes, caps: seq<Capability>) returns (size: nat)
    ensures size == 25 + |sub| + |CapsOf(caps)|
  {
    hide CapBytes;
    size := 8 + 8 + 4 + |sub| + 4 + 1;
    assert caps[..0] == [];
    for i := 0 to |caps|
      invariant size == 25 + |sub| + |CapsOf(caps[..i])|
    {
      size := size + 2 + 4 + |caps[i].pattern|;
      assert caps[..i + 1] == caps[..i] + [caps[i]];
      CapsSnoc(caps[..i], caps[i]);
    }
    assert caps[..|caps|] == caps;
  }

  /** The fixed part: iat, exp, sub, jti and the capability count. */
  method PutHead(a: array<byte>, c: Claims) returns (pos: nat)
    requires 25 + |c.sub| <= a.Length
    modifies a
    ensures pos == 25 + |c.sub|
    ensures a[..pos] == Head(c)
  {
    hide U32, U64, Field;
    pos := PutTime(a, 0, c.iat);
    pos := PutTime(a, pos, c.exp);
    pos := PutField(a, pos, c.sub);
    pos := PutU32(a, pos, c.jti);
    pos := PutByte(a, pos, |c.caps| % 256);
    assert old(a[..0]) + U64(c.iat) == U64(c.iat);
  }

  ghost function Head(c: Claims): bytes
  {
    U64(c.iat) + U64(c.exp) + Field(c.sub) + U32(c.jti) + [|c.caps| % 256]
  }

  lemma LayoutIsHeadThenCaps(c: Claims)
    ensures Layout(c) == Head(c) + CapsOf(c.caps)
    ensures |Layout(c)| == 25 + |c.sub| + |CapsOf(c.caps)|
  {
    hide U32, U64, Field, CapsOf;
    var n: bytes, caps := [|c.caps| % 256], CapsOf(c.caps);
    AppendAssoc(U64(c.iat) + U64(c.exp) + Field(c.sub) + U32(c.jti), n, caps);
    AppendAssoc(U64(c.iat) + U64(c.exp) + Field(c.sub), U32(c.jti), n + caps);
    AppendAssoc(U64(c.iat) + U64(c.exp), Field(c.sub), U32(c.jti) + (n + caps));
    AppendAssoc(U64(c.iat), U64(c.exp), Field(c.sub) + (U32(c.jti) + (n + caps)));
  }

  /** The whole encoder: the last position is the computed size, and the bytes are the layout, then the signature. */
  method EncodeSct(c: Claims, sign: bytes -> bytes) returns (token: bytes, size: nat, pos: nat)
    requires forall p :: |sign(p)| == SIGNATURE_LEN
    ensures pos == size == |Layout(c)|
    ensures token == Layout(c) + sign(Layout(c))
  {
    hide Layout, Head, CapBytes;
    size := PayloadSize(c.sub, c.caps);
    LayoutIsHeadThenCaps(c);
    var payload := new byte[size];
    pos := PutHead(payload, c);
    assert c.caps[..0] == [];
    assert Head(c) + CapsOf([]) == Head(c);
    for i := 0 to |c.caps|
      invariant pos == 25 + |c.sub| + |CapsOf(c.caps[..i])| <= size
      invariant payload[..pos] == Head(c) + CapsOf(c.caps[..i])
    {
      CapsRoom(c.caps, i);
      pos := PutCap(payload, pos, c.caps[i]);
      assert c.caps[..i + 1] == c.caps[..i] + [c.caps[i]];
      CapsSnoc(c.caps[..i], c.caps[i]);
      AppendAssoc(Head(c), CapsOf(c.caps[..i]), CapBytes(c.caps[i]));
    }
    assert c.caps[..|c.caps|] == c.caps;
    Whole(payload, Layout(c));
    var signature := sign(payload[..]);
    var out := new byte[size + SIGNATURE_LEN];
    var end := PutBytes(out, 0, payload[..]);
    assert out[..end] == Layout(c);
    end := PutBytes(out, end, signature);
    Whole(out, Layout(c) + signature);
    token := out[..];
  }

  // ---------------------------------------------------------------------------
  // Reading a token back
  // ---------------------------------------------------------------------------

  /** Claims whose numbers fit the widths of their fields. */
  predicate InRange(c: Claims)
  {
    && 0 <= c.iat < U64_RANGE && 0 <= c.exp < U64_RANGE && 0 <= c.jti < U32_RANGE
    && |c.sub| < U32_RANGE
    && forall i :: 0 <= i < |c.caps| ==> CapInRange(c.caps[i])
  }

  predicate CapInRange(cap: Capability)
  {
    0 <= cap.op < 256 && 0 <= cap.kind < 256 && |cap.pattern| < U32_RANGE
  }

  function ReadCap(s: bytes): Option<(Capability, bytes)>
  {
    if |s| < 2 then None
    else match ReadField(s[2..])
      case None => None
      case Some((pattern, rest)) => Some((Capability(s[0], s[1], pattern), rest))
  }

  function ReadCaps(n: nat, s: bytes): (r: Option<(seq<Capability>, bytes)>)
    ensures r.Some? ==> |r.value.0| == n
  {
    if n == 0 then Some(([], s))
    else match ReadCap(s)
      case None => None
      case Some((cap, rest)) =>
        match ReadCaps(n - 1, rest)
        case None => None
        case Some((caps, tail)) => Some(([cap] + caps, tail))
  }

  /** After the two times: subject, id, count and capabilities, with nothing following. */
  function ReadRest(iat: int, exp: int, s: bytes): Option<Claims>
  {
    match ReadField(s)
    case None => None
    case Some((sub, rest)) =>
      if |rest| < 5 then None
      else match ReadCaps(rest[4], rest[5..])
        case None => None
        case Some((caps, tail)) =>
          if tail == [] then Some(Claims(iat, exp, sub, ReadU32(rest), caps)) else None
  }

  function ReadPayload(s: bytes): Option<Claims>
  {
    if |s| < 16 then None else ReadRest(ReadU64(s), ReadU64(s[8..]), s[16..])
  }

  /** Claims and signature of a token. */
  function ReadToken(token: bytes): Option<(Claims, bytes)>
  {
    if |token| < SIGNATURE_LEN then None
    else
      var n := |token| - SIGNATURE_LEN;
      match ReadPayload(token[..n])
      case None => None
      case Some(c) => Some((c, token[n..]))
  }

  lemma ReadCapOf(cap: Capability, rest: bytes)
    requires CapInRange(cap)
    ensures ReadCap(CapBytes(cap) + rest) == Some((cap, rest))
  {
    hide ReadField, Field;
    assert (CapBytes(cap) + rest)[2..] == Field(cap.pattern) + rest;
    FieldRoundTrip(cap.pattern, rest);
  }

  lemma {:induction false} ReadCapsOf(caps: seq<Capability>, rest: bytes)
    requires forall i :: 0 <= i < |caps| ==> CapInRange(caps[i])
    ensures ReadCaps(|caps|, CapsOf(caps) + rest) == Some((caps, rest))
  {
    hide ReadCap, CapBytes, CapInRange;
    if caps == [] {
      assert CapsOf(caps) + rest == rest;
    } else {
      var tail := CapsOf(caps[1..]) + rest;
      AppendAssoc(CapBytes(caps[0]), CapsOf(caps[1..]), rest);
      ReadCapOf(caps[0], tail);
      ReadCapsOf(caps[1..], rest);
      assert caps == [caps[0]] + caps[1..];
    }
  }

  /** A reader recovers every field and the signature exactly when there are at most 255 capabilities. */
  lemma TokenRoundTrip(c: Claims, signature: bytes)
    requires InRange(c) && |signature| == SIGNATURE_LEN
    ensures ReadToken(Layout(c) + signature) == Some((c, signature)) <==> |c.caps| <= 255
  {
    var token := Layout(c) + signature;
    assert token[..|Layout(c)|] == Layout(c) && token[|Layout(c)|..] == signature;
    if |c.caps| <= 255 {
      PayloadRoundTrip(c);
    } else {
      hide Layout, ReadCaps;
    }
  }

  lemma PayloadRoundTrip(c: Claims)
    requires InRange(c) && |c.caps| <= 255
    ensures ReadPayload(Layout(c)) == Some(c)
  {
    hide U64, ReadU64, U32, ReadRest, Field, CapsOf;
    var afterTimes := Field(c.sub) + (U32(c.jti) + ([|c.caps| % 256] + CapsOf(c.caps)));
    U64RoundTrip(c.iat, U64(c.exp) + afterTimes);
    U64RoundTrip(c.exp, afterTimes);
    RestRoundTrip(c);
    assert Layout(c)[8..] == U64(c.exp) + afterTimes;
    assert Layout(c)[16..] == afterTimes;
  }

  lemma RestRoundTrip(c: Claims)
    requires InRange(c) && |c.caps| <= 255
    ensures ReadRest(c.iat, c.exp, Field(c.sub) + (U32(c.jti) + ([|c.caps| % 256] + CapsOf(c.caps)))) == Some(c)
  {
    hide U32, ReadU32, Field, ReadField, CapsOf;
    var rest := U32(c.jti) + ([|c.caps| % 256] + CapsOf(c.caps));
    FieldRoundTrip(c.sub, rest);
    U32RoundTrip(c.jti, [|c.caps| % 256] + CapsOf(c.caps));
    ReadCapsOf(c.caps, []);
    assert rest[5..] == CapsOf(c.caps) + [];
  }

  // ---------------------------------------------------------------------------
  // What is signed is unambiguous
  // ---------------------------------------------------------------------------

  lemma {:induction false} CapsInjective(a: seq<Capability>, b: seq<Capability>)
    requires forall i :: 0 <= i < |a| ==> CapInRange(a[i])
    requires forall i :: 0 <= i < |b| ==> CapInRange(b[i])
    requires CapsOf(a) == CapsOf(b)
    ensures a == b
  {
    hide CapBytes, ReadCap, CapInRange;
    if a != [] && b != [] {
      ReadCapOf(a[0], CapsOf(a[1..]));
      ReadCapOf(b[0], CapsOf(b[1..]));
      CapsInjective(a[1..], b[1..]);
      assert a == [a[0]] + a[1..] && b == [b[0]] + b[1..];
    }
  }

  /** Two claim sets with the same signed bytes are the same, even past 255 capabilities. */
  lemma SamePayloadSameClaims(a: Claims, b: Claims)
    requires InRange(a) && InRange(b) && Layout(a) == Layout(b)
    ensures a == b
  {
    hide CapsOf, CapInRange;
    HeadFields(a);
    HeadFields(b);
    hide Layout;
    CapsInjective(a.caps, b.caps);
  }

  lemma HeadFields(c: Claims)
    requires InRange(c)
    ensures var s := Layout(c);
            && |s| >= 25 + |c.sub|
            && ReadU64(s) == c.iat && ReadU64(s[8..]) == c.exp
            && ReadField(s[16..]) == Some((c.sub, s[20 + |c.sub|..]))
            && ReadU32(s[20 + |c.sub|..]) == c.jti
            && s[25 + |c.sub|..] == CapsOf(c.caps)
  {
    hide U64, ReadU64, U32, ReadU32, Field, ReadField, CapsOf;
    var afterSub := U32(c.jti) + ([|c.caps| % 256] + CapsOf(c.caps));
    var afterTimes := Field(c.sub) + afterSub;
    U64RoundTrip(c.iat, U64(c.exp) + afterTimes);
    U64RoundTrip(c.exp, afterTimes);
    FieldRoundTrip(c.sub, afterSub);
    U32RoundTrip(c.jti, [|c.caps| % 256] + CapsOf(c.caps));
    var s := Layout(c);
    assert s[8..] == U64(c.exp) + afterTimes;
    assert s[16..] == afterTimes;
    assert s[20 + |c.sub|..] == afterSub;
    assert s[25 + |c.sub|..] == CapsOf(c.caps);
  }
}
