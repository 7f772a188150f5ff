/** combustion_ble/uart.py: the frame check sequence and the message framing.

    The CRC is CRC-16/CCITT-FALSE: generator x^16 + x^12 + x^5 + 1 (ITU-T V.41), register
    preset to ones, no reflection, no final inversion. */
module Uart {
  import opened Wrappers
  import opened Sequences

  type Bytes = seq<bv8>

  // ---- One bit ----------------------------------------------------------------------------

  const PRESET: bv16 := 0xFFFF

  /** The register after one bit. */
  function Step(x: bv16, b: bool): bv16 {
    if (x & 0x8000 != 0) != b then (x << 1) ^ 0x1021 else x << 1
  }

  /** The register after a bit string. */
  function Register(x: bv16, bits: seq<bool>): bv16
    decreases |bits|
  {
    if bits == [] then x else Register(Step(x, bits[0]), bits[1..])
  }

  lemma {:induction false} RegisterAppend(x: bv16, a: seq<bool>, b: seq<bool>)
    ensures Register(x, a + b) == Register(Register(x, a), b)
    decreases |a|
  {
    if a == [] {
      assert a + b == b;
    } else {
      RegisterAppend(Step(x, a[0]), a[1..], b);
      assert (a + b)[1..] == a[1..] + b;
    }
  }

  // ---- The register as a polynomial ---------------------------------------------------------

  /** Sixteen coefficients over GF(2), the highest power first. */
  type Poly = p: seq<bool> | |p| == 16 witness [false, false, false, false, false, false, false, false,
                                               false, false, false, false, false, false, false, false]

  function Coefficients(x: bv16): Poly {
    [x & 0x8000 != 0, x & 0x4000 != 0, x & 0x2000 != 0, x & 0x1000 != 0,
     x & 0x800 != 0, x & 0x400 != 0, x & 0x200 != 0, x & 0x100 != 0,
     x & 0x80 != 0, x & 0x40 != 0, x & 0x20 != 0, x & 0x10 != 0,
     x & 8 != 0, x & 4 != 0, x & 2 != 0, x & 1 != 0]
  }

  /** The generator's terms below x^16: x^12, x^5 and 1. */
  predicate Tap(i: nat) {
    i == 15 - 12 || i == 15 - 5 || i == 15 - 0
  }

  function Next(p: Poly, i: nat): bool {
    if i < 15 then p[i + 1] else false
  }

  /** Multiply by x modulo the generator, adding the bit at the top. */
  function PolyStep(p: Poly, b: bool): Poly {
    seq(16, i requires 0 <= i < 16 => Next(p, i) != ((p[0] != b) && Tap(i)))
  }

  function PolyAdd(p: Poly, q: Poly): Poly {
    seq(16, i requires 0 <= i < 16 => p[i] != q[i])
  }

  /** The zero-bit update. */
  function PolyZero(p: Poly): Poly {
    PolyStep(p, false)
  }

  /** The zero-bit update is linear. */
  lemma ZeroIsLinear(p: Poly, q: Poly)
    ensures PolyZero(PolyAdd(p, q)) == PolyAdd(PolyZero(p), PolyZero(q))
  {
    forall i | 0 <= i < 16
      ensures PolyZero(PolyAdd(p, q))[i] == PolyAdd(PolyZero(p), PolyZero(q))[i]
    {
      assert i < 15 ==> PolyAdd(p, q)[i + 1] == (p[i + 1] != q[i + 1]);
    }
  }

  /** The update by one bit is injective; the lowest coefficient tells the one shifted out. */
  lemma StepIsInjective(p: Poly, q: Poly, b: bool)
    requires PolyStep(p, b) == PolyStep(q, b)
    ensures p == q
  {
    assert PolyStep(p, b)[15] == PolyStep(q, b)[15];
    forall i | 0 <= i < 16
      ensures p[i] == q[i]
    {
      assert i > 0 ==> PolyStep(p, b)[i - 1] == PolyStep(q, b)[i - 1];
    }
  }

  /** The predecessor under the zero-bit update. */
  function PolyUnzero(p: Poly): Poly {
    seq(16, i requires 0 <= i < 16 => if i == 0 then p[15] else p[i - 1] != (p[15] && Tap(i - 1)))
  }

  lemma UnzeroThenZero(p: Poly)
    ensures PolyZero(PolyUnzero(p)) == p
  {
    var u := PolyUnzero(p);
    forall i | 0 <= i < 16
      ensures PolyZero(u)[i] == p[i]
    {
      assert i < 15 ==> u[i + 1] == (p[i] != (p[15] && Tap(i)));
    }
  }

  /** The zero-bit update is a bijection of the register. */
  lemma ZeroIsBijective(p: Poly)
    ensures PolyZero(PolyUnzero(p)) == p && PolyUnzero(PolyZero(p)) == p
  {
    UnzeroThenZero(p);
    UnzeroThenZero(PolyZero(p));
    StepIsInjective(PolyUnzero(PolyZero(p)), p, false);
  }

  function PolyRegister(p: Poly, bits: seq<bool>): Poly
    decreases |bits|
  {
    if bits == [] then p else PolyRegister(PolyStep(p, bits[0]), bits[1..])
  }

  /** Shifting left multiplies by x and drops the term x^16. */
  lemma ShiftIsPolynomial(x: bv16)
    ensures Coefficients(x << 1) == Coefficients(x)[1..] + [false]
  {
  }

  /** The xor adds the generator's lower terms. */
  lemma AddIsPolynomial(y: bv16)
    ensures var p := Coefficients(y);
            Coefficients(y ^ 0x1021) == [p[0], p[1], p[2], !p[3], p[4], p[5], p[6], p[7],
                                         p[8], p[9], !p[10], p[11], p[12], p[13], p[14], !p[15]]
  {
  }

  lemma TopCoefficient(x: bv16)
    ensures Coefficients(x)[0] <==> x & 0x8000 != 0
  {
  }

  /** The shift-and-conditional-xor of the code multiplies by x modulo the generator. */
  lemma StepIsPolynomial(x: bv16, b: bool)
    ensures Coefficients(Step(x, b)) == PolyStep(Coefficients(x), b)
  {
    ShiftIsPolynomial(x);
    AddIsPolynomial(x << 1);
    TopCoefficient(x);
    PolyStepParts(Coefficients(x), Coefficients(x << 1), Coefficients((x << 1) ^ 0x1021), b);
  }

  lemma PolyStepParts(p: Poly, s: Poly, t: Poly, b: bool)
    requires s == p[1..] + [false]
    requires t == [s[0], s[1], s[2], !s[3], s[4], s[5], s[6], s[7],
                   s[8], s[9], !s[10], s[11], s[12], s[13], s[14], !s[15]]
    ensures PolyStep(p, b) == if p[0] != b then t else s
  {
  }

  lemma {:induction false} RegisterIsPolynomial(x: bv16, bits: seq<bool>)
    ensures Coefficients(Register(x, bits)) == PolyRegister(Coefficients(x), bits)
    decreases |bits|
  {
    if bits != [] {
      StepIsPolynomial(x, bits[0]);
      RegisterIsPolynomial(Step(x, bits[0]), bits[1..]);
    }
  }

  lemma {:induction false} PolyAppend(p: Poly, a: seq<bool>, b: seq<bool>)
    ensures PolyRegister(p, a + b) == PolyRegister(PolyRegister(p, a), b)
    decreases |a|
  {
    if a == [] {
      assert a + b == b;
    } else {
      PolyAppend(PolyStep(p, a[0]), a[1..], b);
      assert (a + b)[1..] == a[1..] + b;
    }
  }

  /** Different registers stay different under the same bits. */
  lemma {:induction false} RegisterIsInjective(p: Poly, q: Poly, bits: seq<bool>)
    requires p != q
    ensures PolyRegister(p, bits) != PolyRegister(q, bits)
    decreases |bits|
  {
    if bits != [] {
      if PolyStep(p, bits[0]) == PolyStep(q, bits[0]) {
        StepIsInjective(p, q, bits[0]);
      }
      RegisterIsInjective(PolyStep(p, bits[0]), PolyStep(q, bits[0]), bits[1..]);
    }
  }

  // ---- Sixteen bits ------------------------------------------------------------------------

  /** Up to sixteen bits laid over the register from the top. */
  function Pad(bits: seq<bool>): Poly {
    seq(16, i requires 0 <= i < 16 => i < |bits| && bits[i])
  }

  function Zeros(p: Poly, n: nat): Poly
    decreases n
  {
    if n == 0 then p else Zeros(PolyZero(p), n - 1)
  }

  lemma {:induction false} ZerosAreInjective(p: Poly, q: Poly, n: nat)
    requires p != q
    ensures Zeros(p, n) != Zeros(q, n)
    decreases n
  {
    if n > 0 {
      if PolyZero(p) == PolyZero(q) {
        StepIsInjective(p, q, false);
      }
      ZerosAreInjective(PolyZero(p), PolyZero(q), n - 1);
    }
  }

  /** Adding all bits before the first update, or each before its own, is the same. */
  lemma AddAhead(p: Poly, bits: seq<bool>)
    requires 1 <= |bits| <= 16
    ensures PolyZero(PolyAdd(p, Pad(bits))) == PolyAdd(PolyStep(p, bits[0]), Pad(bits[1..]))
  {
    var z := PolyAdd(p, Pad(bits));
    forall i | 0 <= i < 16
      ensures PolyZero(z)[i] == PolyAdd(PolyStep(p, bits[0]), Pad(bits[1..]))[i]
    {
      assert z[0] == (p[0] != bits[0]);
      assert i < 15 ==> z[i + 1] == (p[i + 1] != Pad(bits)[i + 1]);
      assert Pad(bits[1..])[i] == (i + 1 < |bits| && bits[i + 1]);
    }
  }

  /** Up to sixteen bits can be added at once, before the zero-bit updates. */
  lemma {:induction false} RegisterOfFewBits(p: Poly, bits: seq<bool>)
    requires |bits| <= 16
    ensures PolyRegister(p, bits) == Zeros(PolyAdd(p, Pad(bits)), |bits|)
    decreases |bits|
  {
    if bits == [] {
      assert PolyAdd(p, Pad([])) == p;
    } else {
      AddAhead(p, bits);
      RegisterOfFewBits(PolyStep(p, bits[0]), bits[1..]);
    }
  }

  /** Different strings of at most sixteen bits take one register to different registers. */
  lemma FewBitsTellApart(p: Poly, a: seq<bool>, b: seq<bool>)
    requires |a| == |b| <= 16 && a != b
    ensures PolyRegister(p, a) != PolyRegister(p, b)
  {
    RegisterOfFewBits(p, a);
    RegisterOfFewBits(p, b);
    var i :| 0 <= i < |a| && a[i] != b[i];
    assert PolyAdd(p, Pad(a))[i] != PolyAdd(p, Pad(b))[i];
    ZerosAreInjective(PolyAdd(p, Pad(a)), PolyAdd(p, Pad(b)), |a|);
  }

  /** The strings differ, and only within sixteen consecutive bits. */
  predicate Burst(a: seq<bool>, b: seq<bool>) {
    && |a| == |b| && a != b
    && exists i: nat :: i <= |a| && AgreeOutside(a, b, i)
  }

  predicate AgreeOutside(a: seq<bool>, b: seq<bool>, i: nat) {
    |a| == |b| && forall j | 0 <= j < |a| && !(i <= j < i + 16) :: a[j] == b[j]
  }

  /** Burst errors of up to sixteen bits always change the register, whatever the length. */
  lemma BurstChangesRegister(x: bv16, a: seq<bool>, b: seq<bool>)
    requires Burst(a, b)
    ensures Register(x, a) != Register(x, b)
  {
    RegisterIsPolynomial(x, a);
    RegisterIsPolynomial(x, b);
    BurstChangesPolynomial(Coefficients(x), a, b);
  }

  lemma BurstChangesPolynomial(p: Poly, a: seq<bool>, b: seq<bool>)
    requires Burst(a, b)
    ensures PolyRegister(p, a) != PolyRegister(p, b)
  {
    var i: nat :| i <= |a| && AgreeOutside(a, b, i);
    var end := if i + 16 <= |a| then i + 16 else |a|;
    var before, after, u, v := a[..i], a[end..], a[i..end], b[i..end];
    assert before == b[..i] && after == b[end..];
    assert a == before + u + after && b == before + v + after;
    FewBitsTellApart(PolyRegister(p, before), u, v);
    PolyAppend(p, before + u, after);
    PolyAppend(p, before + v, after);
    PolyAppend(p, before, u);
    PolyAppend(p, before, v);
    RegisterIsInjective(PolyRegister(p, before + u), PolyRegister(p, before + v), after);
  }

  // ---- Bytes ---------------------------------------------------------------------------------

  function BitOf(b: bv8, i: nat): bool
    requires i < 8
  {
    (b >> (7 - i)) & 1 == 1
  }

  /** The bits of a byte string, most significant first. */
  function Bits(data: Bytes): (bits: seq<bool>)
    ensures |bits| == 8 * |data|
  {
    if data == [] then [] else ByteBits(data[0]) + Bits(data[1..])
  }

  function ByteBits(b: bv8): seq<bool> {
    [BitOf(b, 0), BitOf(b, 1), BitOf(b, 2), BitOf(b, 3), BitOf(b, 4), BitOf(b, 5), BitOf(b, 6), BitOf(b, 7)]
  }

  lemma ByteBitsAreInjective(a: bv8, b: bv8)
    requires ByteBits(a) == ByteBits(b)
    ensures a == b
  {
    var s, t := ByteBits(a), ByteBits(b);
    assert s[0] == t[0] && s[1] == t[1] && s[2] == t[2] && s[3] == t[3];
    assert s[4] == t[4] && s[5] == t[5] && s[6] == t[6] && s[7] == t[7];
  }

  lemma FirstByte(a: Bytes, b: Bytes)
    requires a != []
    ensures (a + b)[0] == a[0] && (a + b)[1..] == a[1..] + b
  {
  }

  lemma {:induction false} BitsAppend(a: Bytes, b: Bytes)
    ensures Bits(a + b) == Bits(a) + Bits(b)
    decreases |a|
  {
    if a == [] {
      assert a + b == b;
    } else {
      BitsAppend(a[1..], b);
      FirstByte(a, b);
      Joined(ByteBits(a[0]), Bits(a[1..]), Bits(b));
    }
  }

  lemma {:induction false} BitsAreInjective(a: Bytes, b: Bytes)
    requires |a| == |b| && a != b
    ensures Bits(a) != Bits(b)
    decreases |a|
  {
    var s, t := Bits(a), Bits(b);
    assert s[..8] == ByteBits(a[0]) && t[..8] == ByteBits(b[0]);
    assert s[8..] == Bits(a[1..]) && t[8..] == Bits(b[1..]);
    if a[0] == b[0] {
      assert a == [a[0]] + a[1..] && b == [b[0]] + b[1..];
      BitsAreInjective(a[1..], b[1..]);
    } else if ByteBits(a[0]) == ByteBits(b[0]) {
      ByteBitsAreInjective(a[0], b[0]);
    }
  }

  function Crc(data: Bytes): bv16 {
    Register(PRESET, Bits(data))
  }

  /** `crc16_ccitt`. */
  method Crc16(data: Bytes) returns (crc: bv16)
    ensures crc == Crc(data)
    ensures data == [] ==> crc == 0xFFFF
  {
    crc := 0xFFFF;
    for n := 0 to |data|
      invariant crc == Crc(data[..n])
    {
      crc := AddByte(crc, data[n]);
      NextByte(data, n);
    }
    assert data[..|data|] == data;
  }

  lemma NextByte(data: Bytes, n: nat)
    requires n < |data|
    ensures Crc(data[..n + 1]) == Register(Crc(data[..n]), ByteBits(data[n]))
  {
    assert data[..n + 1] == data[..n] + [data[n]];
    BitsAppend(data[..n], [data[n]]);
    assert [data[n]][1..] == [] && ByteBits(data[n]) + [] == ByteBits(data[n]);
    assert Bits([data[n]]) == ByteBits(data[n]);
    RegisterAppend(PRESET, Bits(data[..n]), ByteBits(data[n]));
  }

  /** The inner loop: the eight bits of a byte, the highest first. */
  method AddByte(start: bv16, byte: bv8) returns (crc: bv16)
    ensures crc == Register(start, ByteBits(byte))
  {
    crc := start;
    ghost var bits := ByteBits(byte);
    for i := 0 to 8
      invariant crc == Register(start, bits[..i])
    {
      NextBit(start, bits, i);
      var bit := ByteBits(byte)[i];
      crc := AddBit(crc, bit);
    }
    assert bits[..8] == bits;
  }

  method AddBit(start: bv16, bit: bool) returns (crc: bv16)
    ensures crc == Step(start, bit)
  {
    var c15 := start & 0x8000 != 0;
    if c15 != bit {
      return (start << 1) ^ 0x1021;
    }
    return start << 1;
  }

  lemma NextBit(x: bv16, bits: seq<bool>, i: nat)
    requires i < |bits|
    ensures Register(x, bits[..i + 1]) == Step(Register(x, bits[..i]), bits[i])
  {
    assert bits[..i + 1] == bits[..i] + [bits[i]];
    RegisterAppend(x, bits[..i], [bits[i]]);
    assert [bits[i]][1..] == [];
  }

  /** Equal-length messages that differ only within sixteen consecutive bits have different
      check sequences. */
  lemma BurstsAreDetected(a: Bytes, b: Bytes)
    requires Burst(Bits(a), Bits(b))
    ensures Crc(a) != Crc(b)
  {
    BurstChangesRegister(PRESET, Bits(a), Bits(b));
  }

  // ---- Frames ---------------------------------------------------------------------------------

  const SYNC: Bytes := [0xCA, 0xFE]
  const REQUEST_HEADER_SIZE: nat := 6
  const RESPONSE_HEADER_SIZE: nat := 7

  function LowByte(c: bv16): bv8 {
    (c & 0xFF) as bv8
  }

  function HighByte(c: bv16): bv8 {
    ((c >> 8) & 0xFF) as bv8
  }

  function Word(low: bv8, high: bv8): bv16 {
    (low as bv16) | ((high as bv16) << 8)
  }

  lemma WordOfBytes(c: bv16)
    ensures Word(LowByte(c), HighByte(c)) == c
  {
  }

  lemma BytesOfWord(low: bv8, high: bv8)
    ensures LowByte(Word(low, high)) == low && HighByte(Word(low, high)) == high
  {
  }

  /** A number as one byte. */
  function ToByte(n: nat): bv8
    requires n < 256
  {
    if n == 0 then 0 else ToByte(n - 1) + 1
  }

  lemma NextNumber(b: bv8)
    requires b as int < 255
    ensures (b + 1) as int == b as int + 1
  {
  }

  lemma {:induction false} LengthByte(n: nat)
    requires n < 256
    ensures ToByte(n) as int == n
  {
    if n > 0 {
      LengthByte(n - 1);
      NextNumber(ToByte(n - 1));
    }
  }

  lemma SameByte(a: bv8, b: bv8)
    requires a as int == b as int
    ensures a == b
  {
    assert (a as int) as bv8 == a && (b as int) as bv8 == b;
  }

  lemma ByteLength(b: bv8)
    ensures 0 <= b as int < 256 && ToByte(b as int) == b
  {
    LengthByte(b as int);
    SameByte(ToByte(b as int), b);
  }

  function Framed(body: Bytes): Bytes {
    SYNC + [LowByte(Crc(body)), HighByte(Crc(body))] + body
  }

  /** `build_request`: a payload whose length does not fit one byte raises. */
  function BuildRequest(msgType: bv8, payload: Bytes): Result<Bytes> {
    if |payload| > 255 then Err(ValueError) else Ok(Framed([msgType, ToByte(|payload|)] + payload))
  }

  /** The response a device sends: type, success, length and payload behind the same header. */
  function BuildResponse(msgType: bv8, success: bv8, payload: Bytes): Bytes
    requires |payload| <= 255
  {
    Framed([msgType, success, ToByte(|payload|)] + payload)
  }

  datatype Response = Response(msgType: bv8, success: bool, payload: Bytes)

  /** `parse_response`. */
  function ParseResponse(data: Bytes): Option<Response> {
    if |data| < RESPONSE_HEADER_SIZE || data[..2] != SYNC then None
    else
      var length := data[6] as int;
      if |data| < RESPONSE_HEADER_SIZE + length then None
      else if Crc(data[4..7 + length]) != Word(data[2], data[3]) then None
      else Some(Response(data[4], data[5] != 0, data[7..7 + length]))
  }

  lemma FramedParts(body: Bytes, rest: Bytes)
    ensures var data := Framed(body) + rest;
            && |data| == 4 + |body| + |rest| && data[..2] == SYNC
            && data[2] == LowByte(Crc(body)) && data[3] == HighByte(Crc(body)) && data[4..4 + |body|] == body
  {
  }

  /** A well-formed response frame, whatever follows it, parses back exactly. */
  lemma ResponsesParseBack(msgType: bv8, success: bv8, payload: Bytes, rest: Bytes)
    requires |payload| <= 255
    ensures ParseResponse(BuildResponse(msgType, success, payload) + rest)
             == Some(Response(msgType, success != 0, payload))
  {
    var body := [msgType, success, ToByte(|payload|)] + payload;
    var data := Framed(body) + rest;
    FramedParts(body, rest);
    WordOfBytes(Crc(body));
    LengthByte(|payload|);
    BodyFields(data, body, msgType, success, payload);
  }

  lemma BodyFields(data: Bytes, body: Bytes, msgType: bv8, success: bv8, payload: Bytes)
    requires |payload| <= 255 && body == [msgType, success, ToByte(|payload|)] + payload
    requires |data| >= 4 + |body| && data[4..4 + |body|] == body
    ensures data[4] == msgType && data[5] == success && data[6] == ToByte(|payload|)
    ensures data[7..7 + |payload|] == payload
  {
    assert data[4] == body[0] && data[5] == body[1] && data[6] == body[2];
    assert data[7..7 + |payload|] == body[3..];
  }

  /** What parses begins with the well-formed frame of what it parses to. */
  lemma ParsedIsFrame(data: Bytes)
    requires ParseResponse(data).Some?
    ensures var r := ParseResponse(data).value;
            && |r.payload| <= 255 && r.success == (data[5] != 0)
            && BuildResponse(r.msgType, data[5], r.payload) <= data
  {
    ByteLength(data[6]);
    CheckedFrame(data, data[6] as int);
  }

  lemma CheckedFrame(data: Bytes, length: nat)
    requires |data| >= 7 + length && length < 256 && data[6] == ToByte(length) && data[..2] == SYNC
    requires Crc(data[4..7 + length]) == Word(data[2], data[3])
    ensures BuildResponse(data[4], data[5], data[7..7 + length]) <= data
  {
    BytesOfWord(data[2], data[3]);
    FrameAtStart(data, length);
  }

  lemma Regrouped(data: Bytes, length: nat)
    requires |data| >= 7 + length
    ensures data[4..7 + length] == [data[4], data[5], data[6]] + data[7..7 + length]
    ensures data[..7 + length] == data[..2] + [data[2], data[3]] + data[4..7 + length]
  {
  }

  lemma FrameAtStart(data: Bytes, length: nat)
    requires |data| >= 7 + length && length < 256 && data[6] == ToByte(length) && data[..2] == SYNC
    requires data[2] == LowByte(Crc(data[4..7 + length])) && data[3] == HighByte(Crc(data[4..7 + length]))
    ensures BuildResponse(data[4], data[5], data[7..7 + length]) == data[..7 + length]
  {
    Regrouped(data, length);
  }

  /** The type, success, length and payload bytes of a received message. */
  function BodyOf(data: Bytes): Bytes
    requires |data| >= RESPONSE_HEADER_SIZE && |data| >= RESPONSE_HEADER_SIZE + data[6] as int
  {
    data[4..7 + data[6] as int]
  }

  /** A burst of up to sixteen bits in the type, success or payload bytes of an accepted
      message is always rejected. */
  lemma CorruptionIsRejected(data: Bytes, received: Bytes)
    requires ParseResponse(data).Some?
    requires |received| == |data| && received[..4] == data[..4] && received[6] == data[6]
    requires Burst(Bits(BodyOf(data)), Bits(BodyOf(received)))
    ensures ParseResponse(received).None?
  {
    BurstsAreDetected(BodyOf(data), BodyOf(received));
    assert received[2] == received[..4][2] && received[3] == received[..4][3];
    assert data[2] == data[..4][2] && data[3] == data[..4][3];
  }

  /** One corrupted byte among type, success and payload is such a burst. */
  lemma ByteErrorIsRejected(data: Bytes, at: nat, value: bv8)
    requires ParseResponse(data).Some?
    requires 4 <= at < 7 + data[6] as int && at != 6 && value != data[at]
    ensures ParseResponse(data[at := value]).None?
  {
    var received := data[at := value];
    ByteErrorInBody(data, at, 7 + data[6] as int, value);
    ByteErrorIsBurst(BodyOf(data), at - 4, value);
    CorruptionIsRejected(data, received);
  }

  lemma ByteErrorInBody(data: Bytes, at: nat, end: nat, value: bv8)
    requires 4 <= at < end <= |data| && at != 6
    ensures data[at := value][4..end] == data[4..end][at - 4 := value]
    ensures data[at := value][..4] == data[..4] && (end > 6 ==> data[at := value][6] == data[6])
  {
  }

  lemma ByteErrorIsBurst(a: Bytes, k: nat, value: bv8)
    requires k < |a| && value != a[k]
    ensures Burst(Bits(a), Bits(a[k := value]))
  {
    var b := a[k := value];
    BitsAreInjective(a, b);
    assert a == a[..k] + [a[k]] + a[k + 1..] && b == a[..k] + [value] + a[k + 1..];
    BitsAppend(a[..k] + [a[k]], a[k + 1..]);
    BitsAppend(a[..k], [a[k]]);
    BitsAppend(a[..k] + [value], a[k + 1..]);
    BitsAppend(a[..k], [value]);
    assert AgreeOutside(Bits(a), Bits(b), 8 * k);
  }

  /** Requests read back: the frame determines type and payload, and only payloads of more
      than 255 bytes raise. */
  lemma RequestsReadBack(msgType: bv8, payload: Bytes, frame: Bytes)
    ensures BuildRequest(msgType, payload).Err? <==> |payload| > 255
    ensures BuildRequest(msgType, payload) == Ok(frame) ==>
              && |frame| == REQUEST_HEADER_SIZE + |payload| && frame[..2] == SYNC
              && Word(frame[2], frame[3]) == Crc(frame[4..])
              && frame[4] == msgType && frame[5] as int == |payload| && frame[6..] == payload
  {
    if |payload| <= 255 {
      var body := [msgType, ToByte(|payload|)] + payload;
      FramedParts(body, []);
      assert Framed(body) + [] == Framed(body);
      WordOfBytes(Crc(body));
      LengthByte(|payload|);
      RequestFields(Framed(body), body, payload);
    }
  }

  lemma RequestFields(data: Bytes, body: Bytes, payload: Bytes)
    requires |body| == 2 + |payload| && body[2..] == payload
    requires |data| == 4 + |body| && data[4..4 + |body|] == body
    ensures data[4..] == body && data[4] == body[0] && data[5] == body[1] && data[6..] == payload
  {
    assert data[6..] == body[2..];
  }
}
