/** What the check sequence is: the remainder of the message, behind sixteen ones, under the
    generator x^16 + x^12 + x^5 + 1; with the published check value and the two reference frames. */
module CrcRemainder {
  import opened Uart
  import opened Wrappers
  import opened Sequences

  // ---- Polynomials over GF(2) ----------------------------------------------------------------------

  /** The coefficient at a place of a bit string, the highest power first; false beyond its ends. */
  function At(bits: seq<bool>, k: int): bool {
    0 <= k < |bits| && bits[k]
  }

  /** q times the generator: the sum of q shifted by 16, 12, 5 and 0 powers. Place k of the
      product stands for the power |q| + 15 - k. */
  function Product(q: seq<bool>, k: int): bool {
    ((At(q, k) != At(q, k - 4)) != At(q, k - 11)) != At(q, k - 16)
  }

  /** The dividend: sixteen further zeros after the message, and the preset added to its first
      sixteen coefficients. */
  function Dividend(preset: seq<bool>, message: seq<bool>, k: int): bool {
    At(message, k) != At(preset, k)
  }

  /** dividend = q * generator + r, place by place, with r in the sixteen lowest. */
  ghost predicate Divides(preset: seq<bool>, message: seq<bool>, q: seq<bool>, r: seq<bool>) {
    && |q| == |message| && |r| == 16
    && forall k: int :: Dividend(preset, message, k) == (Product(q, k) != At(r, k - |message|))
  }

  lemma AtMore(q: seq<bool>, t: bool, k: int)
    ensures At(q + [t], k) == if k == |q| then t else At(q, k)
  {
  }

  lemma ProductMore(q: seq<bool>, t: bool, k: int)
    ensures Product(q + [t], k)
         == (Product(q, k) != (t && (k == |q| || k == |q| + 4 || k == |q| + 11 || k == |q| + 16)))
  {
    AtMore(q, t, k);
    AtMore(q, t, k - 4);
    AtMore(q, t, k - 11);
    AtMore(q, t, k - 16);
  }

  lemma StepAt(r: Poly, b: bool, j: int)
    ensures At(PolyStep(r, b), j) == if 0 <= j < 16 then At(r, j + 1) != ((r[0] != b) && (j == 3 || j == 10 || j == 15))
                                     else false
  {
  }

  /** One more bit of the message: the quotient gains the bit shifted out, and the remainder is
      the next register. */
  lemma DividesMore(preset: seq<bool>, message: seq<bool>, b: bool, q: seq<bool>, r: Poly)
    requires |preset| == 16 && Divides(preset, message, q, r)
    ensures Divides(preset, message + [b], q + [r[0] != b], PolyStep(r, b))
  {
    forall k: int
      ensures Dividend(preset, message + [b], k)
           == (Product(q + [r[0] != b], k) != At(PolyStep(r, b), k - |message + [b]|))
    {
      assert Dividend(preset, message, k) == (Product(q, k) != At(r, k - |message|));
      AtMore(message, b, k);
      ProductMore(q, r[0] != b, k);
      StepAt(r, b, k - |message| - 1);
    }
  }

  lemma {:induction false} RegisterDivides(preset: Poly, message: seq<bool>) returns (q: seq<bool>)
    ensures Divides(preset, message, q, PolyRegister(preset, message))
    decreases |message|
  {
    if message == [] {
      q := [];
    } else {
      var n := |message| - 1;
      var shorter := RegisterDivides(preset, message[..n]);
      var r := PolyRegister(preset, message[..n]);
      assert message == message[..n] + [message[n]];
      PolyAppend(preset, message[..n], [message[n]]);
      assert [message[n]][1..] == [];
      DividesMore(preset, message[..n], message[n], shorter, r);
      q := shorter + [r[0] != message[n]];
    }
  }

  /** There is only one quotient: each place of the product above the remainder settles one. */
  lemma {:induction false} QuotientUnique(preset: seq<bool>, message: seq<bool>, q: seq<bool>, r: seq<bool>,
                                          p: seq<bool>, s: seq<bool>, n: nat)
    requires Divides(preset, message, q, r) && Divides(preset, message, p, s) && n <= |message|
    ensures q[..n] == p[..n]
  {
    if n > 0 {
      var k := n - 1;
      QuotientUnique(preset, message, q, r, p, s, k);
      assert Dividend(preset, message, k) == (Product(q, k) != At(r, k - |message|));
      assert Dividend(preset, message, k) == (Product(p, k) != At(s, k - |message|));
      EarlierPlaces(q, p, k, k - 4);
      EarlierPlaces(q, p, k, k - 11);
      EarlierPlaces(q, p, k, k - 16);
      assert q[..n] == q[..k] + [q[k]] && p[..n] == p[..k] + [p[k]];
    }
  }

  lemma EarlierPlaces(q: seq<bool>, p: seq<bool>, n: nat, k: int)
    requires n <= |q| && n <= |p| && q[..n] == p[..n] && k < n
    ensures At(q, k) == At(p, k)
  {
    if k >= 0 {
      assert q[k] == q[..n][k] && p[k] == p[..n][k];
    }
  }

  lemma RemainderUnique(preset: seq<bool>, message: seq<bool>, q: seq<bool>, r: seq<bool>, p: seq<bool>, s: seq<bool>)
    requires Divides(preset, message, q, r) && Divides(preset, message, p, s)
    ensures r == s
  {
    QuotientUnique(preset, message, q, r, p, s, |message|);
    assert q == q[..|message|] && p == p[..|message|];
    forall j | 0 <= j < 16
      ensures r[j] == s[j]
    {
      var k := j + |message|;
      assert Dividend(preset, message, k) == (Product(q, k) != At(r, k - |message|));
      assert Dividend(preset, message, k) == (Product(p, k) != At(s, k - |message|));
    }
  }

  // ---- The check sequence ----------------------------------------------------------------------------

  function Ones(): Poly {
    seq(16, i => true)
  }

  lemma PresetIsOnes()
    ensures Coefficients(0xFFFF) == Ones()
  {
  }

  lemma RegisterIsRemainder(preset: Poly, message: seq<bool>, r: seq<bool>)
    ensures r == PolyRegister(preset, message) <==> exists q :: Divides(preset, message, q, r)
  {
    var q := RegisterDivides(preset, message);
    if r == PolyRegister(preset, message) {
      assert Divides(preset, message, q, r);
    }
    forall p | Divides(preset, message, p, r)
      ensures r == PolyRegister(preset, message)
    {
      RemainderUnique(preset, message, q, PolyRegister(preset, message), p, r);
    }
  }

  /** The check sequence of a message is the remainder, and the only one, of the message with
      sixteen zeros behind it and sixteen ones added in front, divided by the generator. */
  lemma CrcIsRemainder(data: Bytes, r: seq<bool>)
    ensures r == Coefficients(Crc(data)) <==> exists q :: Divides(Ones(), Bits(data), q, r)
  {
    PresetIsOnes();
    RegisterIsPolynomial(PRESET, Bits(data));
    assert Coefficients(PRESET) == Ones();
    assert Coefficients(Crc(data)) == PolyRegister(Ones(), Bits(data));
    RegisterIsRemainder(Ones(), Bits(data), r);
  }

  /** A register is its coefficients, the highest first. */
  lemma CoefficientsTell(x: bv16, y: bv16)
    ensures Coefficients(x) == Coefficients(y) <==> x == y
  {
    if Coefficients(x) == Coefficients(y) {
      SameBits(x, y, Coefficients(x), Coefficients(y));
    }
  }

  lemma SameBits(x: bv16, y: bv16, p: Poly, q: Poly)
    requires p == Coefficients(x) && q == Coefficients(y) && p == q
    ensures x == y
  {
    SameNibbles(x, y, p, q);
    Nibbles(x);
    Nibbles(y);
  }

  lemma SameNibbles(x: bv16, y: bv16, p: Poly, q: Poly)
    requires p == Coefficients(x) && q == Coefficients(y) && p == q
    ensures x & 0xF000 == y & 0xF000 && x & 0xF00 == y & 0xF00 && x & 0xF0 == y & 0xF0 && x & 0xF == y & 0xF
  {
    assert p[0] == q[0] && p[1] == q[1] && p[2] == q[2] && p[3] == q[3];
    FirstNibble(x, y);
    assert p[4] == q[4] && p[5] == q[5] && p[6] == q[6] && p[7] == q[7];
    SecondNibble(x, y);
    assert p[8] == q[8] && p[9] == q[9] && p[10] == q[10] && p[11] == q[11];
    ThirdNibble(x, y);
    assert p[12] == q[12] && p[13] == q[13] && p[14] == q[14] && p[15] == q[15];
    FourthNibble(x, y);
  }

  lemma Nibbles(x: bv16)
    ensures x == (x & 0xF000) | (x & 0xF00) | (x & 0xF0) | (x & 0xF)
  {
  }

  lemma FirstNibble(x: bv16, y: bv16)
    requires (x & 0x8000 != 0) == (y & 0x8000 != 0) && (x & 0x4000 != 0) == (y & 0x4000 != 0)
    requires (x & 0x2000 != 0) == (y & 0x2000 != 0) && (x & 0x1000 != 0) == (y & 0x1000 != 0)
    ensures x & 0xF000 == y & 0xF000
  {
  }

  lemma SecondNibble(x: bv16, y: bv16)
    requires (x & 0x800 != 0) == (y & 0x800 != 0) && (x & 0x400 != 0) == (y & 0x400 != 0)
    requires (x & 0x200 != 0) == (y & 0x200 != 0) && (x & 0x100 != 0) == (y & 0x100 != 0)
    ensures x & 0xF00 == y & 0xF00
  {
  }

  lemma ThirdNibble(x: bv16, y: bv16)
    requires (x & 0x80 != 0) == (y & 0x80 != 0) && (x & 0x40 != 0) == (y & 0x40 != 0)
    requires (x & 0x20 != 0) == (y & 0x20 != 0) && (x & 0x10 != 0) == (y & 0x10 != 0)
    ensures x & 0xF0 == y & 0xF0
  {
  }

  lemma FourthNibble(x: bv16, y: bv16)
    requires (x & 8 != 0) == (y & 8 != 0) && (x & 4 != 0) == (y & 4 != 0)
    requires (x & 2 != 0) == (y & 2 != 0) && (x & 1 != 0) == (y & 1 != 0)
    ensures x & 0xF == y & 0xF
  {
  }

  // ---- One byte of zeros -----------------------------------------------------------------------------

  /** One bit more, given the register before and after it. */
  lemma OneBit(x: bv16, bits: seq<bool>, i: nat, before: bv16, after: bv16)
    requires i < |bits| && Register(x, bits[..i]) == before && after == Step(before, bits[i])
    ensures Register(x, bits[..i + 1]) == after
  {
    NextBit(x, bits, i);
  }

  predicate FourSteps(x: bv16, b: bv8, k: nat, y: seq<bv16>)
    requires k == 0 || k == 4
  {
    && |y| == 4 && y[0] == Step(x, BitOf(b, k)) && y[1] == Step(y[0], BitOf(b, k + 1))
    && y[2] == Step(y[1], BitOf(b, k + 2)) && y[3] == Step(y[2], BitOf(b, k + 3))
  }

  lemma HalfByte(x: bv16, b: bv8, k: nat, start: bv16, y: seq<bv16>)
    requires (k == 0 || k == 4) && FourSteps(start, b, k, y) && Register(x, ByteBits(b)[..k]) == start
    ensures Register(x, ByteBits(b)[..k + 4]) == y[3]
  {
    var bits := ByteBits(b);
    if k == 0 { HighBits(b); } else { LowBits(b); }
    OneBit(x, bits, k, start, y[0]);
    OneBit(x, bits, k + 1, y[0], y[1]);
    OneBit(x, bits, k + 2, y[1], y[2]);
    OneBit(x, bits, k + 3, y[2], y[3]);
  }

  lemma HighBits(b: bv8)
    ensures ByteBits(b)[0] == BitOf(b, 0) && ByteBits(b)[1] == BitOf(b, 1)
    ensures ByteBits(b)[2] == BitOf(b, 2) && ByteBits(b)[3] == BitOf(b, 3)
  {
  }

  lemma LowBits(b: bv8)
    ensures ByteBits(b)[4] == BitOf(b, 4) && ByteBits(b)[5] == BitOf(b, 5)
    ensures ByteBits(b)[6] == BitOf(b, 6) && ByteBits(b)[7] == BitOf(b, 7)
  {
  }

  /** The register after a byte, given the registers after each of its bits. */
  lemma ByteEnds(x: bv16, b: bv8, y: seq<bv16>, z: seq<bv16>)
    requires FourSteps(x, b, 0, y) && FourSteps(y[3], b, 4, z)
    ensures Register(x, ByteBits(b)) == z[3]
  {
    var bits := ByteBits(b);
    assert bits[..0] == [] && bits[..8] == bits;
    HalfByte(x, b, 0, x, y);
    HalfByte(x, b, 4, y[3], z);
  }

  lemma NextCrc(data: Bytes, b: bv8)
    ensures Crc(data + [b]) == Register(Crc(data), ByteBits(b))
  {
    NextByte(data + [b], |data|);
    assert (data + [b])[..|data|] == data && (data + [b])[..|data| + 1] == data + [b];
  }

  lemma CrcOfNothing()
    ensures Crc([]) == 0xFFFF
  {
  }

  /** Why the register is preset: a zero byte put before a message always changes its check
      sequence. */
  lemma LeadingZeroIsDetected(data: Bytes)
    ensures Crc([0] + data) != Crc(data)
  {
    BitsAppend([0], data);
    assert Bits([0]) == ByteBits(0) by {
      assert [0 as bv8][1..] == [] && ByteBits(0) + [] == ByteBits(0);
    }
    RegisterAppend(0xFFFF, ByteBits(0), Bits(data));
    ZeroByte();
    RegisterIsPolynomial(0xE1F0, Bits(data));
    RegisterIsPolynomial(0xFFFF, Bits(data));
    CoefficientsTell(0xE1F0, 0xFFFF);
    RegisterIsInjective(Coefficients(0xE1F0), Coefficients(0xFFFF), Bits(data));
  }

  lemma ZeroByte()
    ensures Register(0xFFFF, ByteBits(0)) == 0xE1F0
  {
    ByteEnds(0xFFFF, 0, [0xEFDF, 0xCF9F, 0x8F1F, 0x0E1F], [0x1C3E, 0x387C, 0x70F8, 0xE1F0]);
  }

  // ---- The published check value and the reference frames ----------------------------------------------

  /** The check sequence after one more byte. */
  lemma CrcMore(data: Bytes, b: bv8, x: bv16, y: seq<bv16>, z: seq<bv16>, longer: Bytes)
    requires Crc(data) == x && longer == data + [b]
    requires FourSteps(x, b, 0, y) && FourSteps(y[3], b, 4, z)
    ensures Crc(longer) == z[3]
  {
    NextCrc(data, b);
    ByteEnds(x, b, y, z);
  }

  lemma CrcOne()
    ensures Crc([0x31]) == 0xC782
  {
    CrcOfNothing();
    CrcMore([], 0x31, 0xFFFF, [0xEFDF, 0xCF9F, 0x9F3E, 0x3E7C], [0x7CF8, 0xF9F0, 0xE3C1, 0xC782],
            [0x31]);
  }

  lemma CrcTwo()
    ensures Crc([0x31, 0x32]) == 0x3DBA
  {
    CrcOne();
    CrcMore([0x31], 0x32, 0xC782, [0x9F25, 0x2E6B, 0x4CF7, 0x89CF], [0x03BF, 0x077E, 0x1EDD, 0x3DBA],
            [0x31, 0x32]);
  }

  lemma CrcThree()
    ensures Crc([0x31, 0x32, 0x33]) == 0x5BCE
  {
    CrcTwo();
    CrcMore([0x31, 0x32], 0x33, 0x3DBA, [0x7B74, 0xF6E8, 0xEDD0, 0xDBA0], [0xA761, 0x5EE3, 0xADE7, 0x5BCE],
            [0x31, 0x32, 0x33]);
  }

  lemma CrcFour()
    ensures Crc([0x31, 0x32, 0x33, 0x34]) == 0x5349
  {
    CrcThree();
    CrcMore([0x31, 0x32, 0x33], 0x34,
            0x5BCE, [0xB79C, 0x7F19, 0xEE13, 0xDC26], [0xA86D, 0x50DA, 0xA1B4, 0x5349],
            [0x31, 0x32, 0x33, 0x34]);
  }

  lemma CrcFive()
    ensures Crc([0x31, 0x32, 0x33, 0x34, 0x35]) == 0x4560
  {
    CrcFour();
    CrcMore([0x31, 0x32, 0x33, 0x34], 0x35,
            0x5349, [0xA692, 0x5D05, 0xAA2B, 0x5456], [0xA8AC, 0x5158, 0xA2B0, 0x4560],
            [0x31, 0x32, 0x33, 0x34, 0x35]);
  }

  lemma CrcSix()
    ensures Crc([0x31, 0x32, 0x33, 0x34, 0x35, 0x36]) == 0x2EF4
  {
    CrcFive();
    CrcMore([0x31, 0x32, 0x33, 0x34, 0x35], 0x36,
            0x4560, [0x8AC0, 0x05A1, 0x1B63, 0x26E7], [0x4DCE, 0x8BBD, 0x177A, 0x2EF4],
            [0x31, 0x32, 0x33, 0x34, 0x35, 0x36]);
  }

  lemma CrcSeven()
    ensures Crc([0x31, 0x32, 0x33, 0x34, 0x35, 0x36, 0x37]) == 0x7718
  {
    CrcSix();
    CrcMore([0x31, 0x32, 0x33, 0x34, 0x35, 0x36], 0x37,
            0x2EF4, [0x5DE8, 0xBBD0, 0x77A0, 0xFF61], [0xEEE3, 0xDDC6, 0xBB8C, 0x7718],
            [0x31, 0x32, 0x33, 0x34, 0x35, 0x36, 0x37]);
  }

  lemma CrcEight()
    ensures Crc([0x31, 0x32, 0x33, 0x34, 0x35, 0x36, 0x37, 0x38]) == 0xA12B
  {
    CrcSeven();
    CrcMore([0x31, 0x32, 0x33, 0x34, 0x35, 0x36, 0x37], 0x38,
            0x7718, [0xEE30, 0xCC41, 0x9882, 0x3104], [0x7229, 0xE452, 0xD885, 0xA12B],
            [0x31, 0x32, 0x33, 0x34, 0x35, 0x36, 0x37, 0x38]);
  }

  /** The published check value: the check sequence of the nine digits "123456789". */
  lemma CheckValue()
    ensures Crc([0x31, 0x32, 0x33, 0x34, 0x35, 0x36, 0x37, 0x38, 0x39]) == 0x29B1
  {
    CrcEight();
    CrcMore([0x31, 0x32, 0x33, 0x34, 0x35, 0x36, 0x37, 0x38], 0x39,
            0xA12B, [0x5277, 0xA4EE, 0x49DC, 0x8399], [0x0732, 0x0E64, 0x1CC8, 0x29B1],
            [0x31, 0x32, 0x33, 0x34, 0x35, 0x36, 0x37, 0x38, 0x39]);
  }

  lemma SetCrcOne()
    ensures Crc([0x05]) == 0xB155
  {
    CrcOfNothing();
    CrcMore([], 0x05, 0xFFFF, [0xEFDF, 0xCF9F, 0x8F1F, 0x0E1F], [0x1C3E, 0x285D, 0x50BA, 0xB155],
            [0x05]);
  }

  lemma SetCrcTwo()
    ensures Crc([0x05, 0x02]) == 0xC2B8
  {
    SetCrcOne();
    CrcMore([0x05], 0x02, 0xB155, [0x728B, 0xE516, 0xDA0D, 0xA43B], [0x5857, 0xB0AE, 0x615C, 0xC2B8],
            [0x05, 0x02]);
  }

  lemma SetCrcThree()
    ensures Crc([0x05, 0x02, 0x58]) == 0x9AF3
  {
    SetCrcTwo();
    CrcMore([0x05, 0x02], 0x58, 0xC2B8, [0x9551, 0x2AA2, 0x5544, 0xBAA9], [0x7552, 0xEAA4, 0xC569, 0x9AF3],
            [0x05, 0x02, 0x58]);
  }

  lemma SetCrcFour()
    ensures Crc([0x05, 0x02, 0x58, 0x0A]) == 0x70B9
  {
    SetCrcThree();
    CrcMore([0x05, 0x02, 0x58], 0x0A,
            0x9AF3, [0x25C7, 0x4B8E, 0x971C, 0x3E19], [0x6C13, 0xD826, 0xB04C, 0x70B9],
            [0x05, 0x02, 0x58, 0x0A]);
  }

  lemma SilenceCrcOne()
    ensures Crc([0x0C]) == 0x207C
  {
    CrcOfNothing();
    CrcMore([], 0x0C, 0xFFFF, [0xEFDF, 0xCF9F, 0x8F1F, 0x0E1F], [0x0C1F, 0x081F, 0x103E, 0x207C],
            [0x0C]);
  }

  lemma SilenceCrcTwo()
    ensures Crc([0x0C, 0x00]) == 0x5862
  {
    SilenceCrcOne();
    CrcMore([0x0C], 0x00, 0x207C, [0x40F8, 0x81F0, 0x13C1, 0x2782], [0x4F04, 0x9E08, 0x2C31, 0x5862],
            [0x0C, 0x00]);
  }

  /** The reference frame of Set Prediction, to 60.0 degrees in mode 2: the low byte of the check
      sequence goes first. */
  lemma SetPredictionFrame()
    ensures BuildRequest(0x05, [0x58, 0x0A]) == Ok([0xCA, 0xFE, 0xB9, 0x70, 0x05, 0x02, 0x58, 0x0A])
  {
    SetCrcFour();
    SmallNumbers();
    var body: Bytes := [0x05, 0x02, 0x58, 0x0A];
    assert body == [0x05, 0x02] + [0x58, 0x0A];
    RequestFrame(0x05, [0x58, 0x0A], 2, 0x70B9, 0xB9, 0x70, body);
    assert [0xCA, 0xFE, 0xB9, 0x70] + body == [0xCA, 0xFE, 0xB9, 0x70, 0x05, 0x02, 0x58, 0x0A];
  }

  /** The reference frame of Silence Alarms, which has no payload. */
  lemma SilenceAlarmsFrame()
    ensures BuildRequest(0x0C, []) == Ok([0xCA, 0xFE, 0x62, 0x58, 0x0C, 0x00])
  {
    SilenceCrcTwo();
    SmallNumbers();
    var body: Bytes := [0x0C, 0x00];
    assert body == [0x0C, 0x00] + [];
    RequestFrame(0x0C, [], 0, 0x5862, 0x62, 0x58, body);
    assert [0xCA, 0xFE, 0x62, 0x58] + body == [0xCA, 0xFE, 0x62, 0x58, 0x0C, 0x00];
  }

  lemma SmallNumbers()
    ensures ToByte(0) == 0 && ToByte(1) == 1 && ToByte(2) == 2
  {
  }

  /** A request frame, byte by byte. */
  lemma RequestFrame(msgType: bv8, payload: Bytes, n: bv8, c: bv16, low: bv8, high: bv8, body: Bytes)
    requires |payload| <= 255 && ToByte(|payload|) == n && body == [msgType, n] + payload && Crc(body) == c
    requires c == ((high as bv16) << 8) | (low as bv16)
    ensures BuildRequest(msgType, payload) == Ok([0xCA, 0xFE, low, high] + body)
  {
    BytesOf(c, low, high);
    FrameOf(body, low, high);
    assert BuildRequest(msgType, payload) == Ok(Framed(body));
  }

  lemma FrameOf(body: Bytes, low: bv8, high: bv8)
    requires low == LowByte(Crc(body)) && high == HighByte(Crc(body))
    ensures Framed(body) == [0xCA, 0xFE, low, high] + body
  {
  }

  lemma BytesOf(c: bv16, low: bv8, high: bv8)
    requires c == ((high as bv16) << 8) | (low as bv16)
    ensures LowByte(c) == low && HighByte(c) == high
  {
  }
}
