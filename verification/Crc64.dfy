/** CRC64 of utils/crc64.go against bit-by-bit division. */
module Crc64 {
  import opened Crc64Table

  /** The Jones polynomial, bit-reflected. */
  const POLY: bv64 := 0x95ac9329ac4bc9b5

  function Xor(x: bv64, y: bv64): bv64 { x ^ y }

  function Half(x: bv64): bv64 { x >> 1 }

  predicate Odd(x: bv64) { x & 1 == 1 }

  /** One division step: shift out the lowest bit, subtract the polynomial if it was set. */
  function Shift(crc: bv64): bv64 {
    if Odd(crc) then Xor(Half(crc), POLY) else Half(crc)
  }

  function Low(bit: bool): bv64 { if bit then 1 else 0 }

  /** Long division of a bit string, lowest bit of each byte first. */
  function Divide(crc: bv64, message: seq<bool>): bv64
    decreases message
  {
    if message == [] then crc else Divide(Shift(Xor(crc, Low(message[0]))), message[1..])
  }

  /** The n lowest bits of y, lowest first. */
  function LowBits(y: bv64, n: nat): seq<bool> {
    if n == 0 then [] else [Odd(y)] + LowBits(Half(y), n - 1)
  }

  function BitsOf(b: bv8): seq<bool> { LowBits(b as bv64, 8) }

  function MessageBits(p: seq<bv8>): seq<bool> {
    if p == [] then [] else BitsOf(p[0]) + MessageBits(p[1..])
  }

  /** CRC64 of a byte string by its definition, continuing from crc. */
  function Crc(crc: bv64, p: seq<bv8>): bv64 { Divide(crc, MessageBits(p)) }

  /** The table index: the low byte of the remainder against the next byte. */
  function LowOf(crc: bv64, b: bv8): bv8 { (crc & 0xFF) as bv8 ^ b }

  /** The table-driven step of the code. */
  function TableStep(crc: bv64, b: bv8): bv64 {
    Xor(Table(LowOf(crc, b)), crc >> 8)
  }

  function Shift8(crc: bv64): bv64 {
    Shift(Shift(Shift(Shift(Shift(Shift(Shift(Shift(crc))))))))
  }

  // ---- The table -----------------------------------------------------------------------------

  lemma Row0Divides(k: bv8)
    requires k < 16
    ensures Row0(k) == Shift8((0x00 | k) as bv64)
  {
    if k < 4 {} else if k < 8 {} else if k < 12 {}
  }

  lemma Row1Divides(k: bv8)
    requires k < 16
    ensures Row1(k) == Shift8((0x10 | k) as bv64)
  {
    if k < 4 {} else if k < 8 {} else if k < 12 {}
  }

  lemma Row2Divides(k: bv8)
    requires k < 16
    ensures Row2(k) == Shift8((0x20 | k) as bv64)
  {
    if k < 4 {} else if k < 8 {} else if k < 12 {}
  }

  lemma Row3Divides(k: bv8)
    requires k < 16
    ensures Row3(k) == Shift8((0x30 | k) as bv64)
  {
    if k < 4 {} else if k < 8 {} else if k < 12 {}
  }

  lemma Row4Divides(k: bv8)
    requires k < 16
    ensures Row4(k) == Shift8((0x40 | k) as bv64)
  {
    if k < 4 {} else if k < 8 {} else if k < 12 {}
  }

  lemma Row5Divides(k: bv8)
    requires k < 16
    ensures Row5(k) == Shift8((0x50 | k) as bv64)
  {
    if k < 4 {} else if k < 8 {} else if k < 12 {}
  }

  lemma Row6Divides(k: bv8)
    requires k < 16
    ensures Row6(k) == Shift8((0x60 | k) as bv64)
  {
    if k < 4 {} else if k < 8 {} else if k < 12 {}
  }

  lemma Row7Divides(k: bv8)
    requires k < 16
    ensures Row7(k) == Shift8((0x70 | k) as bv64)
  {
    if k < 4 {} else if k < 8 {} else if k < 12 {}
  }

  lemma Row8Divides(k: bv8)
    requires k < 16
    ensures Row8(k) == Shift8((0x80 | k) as bv64)
  {
    if k < 4 {} else if k < 8 {} else if k < 12 {}
  }

  lemma Row9Divides(k: bv8)
    requires k < 16
    ensures Row9(k) == Shift8((0x90 | k) as bv64)
  {
    if k < 4 {} else if k < 8 {} else if k < 12 {}
  }

  lemma RowADivides(k: bv8)
    requires k < 16
    ensures RowA(k) == Shift8((0xA0 | k) as bv64)
  {
    if k < 4 {} else if k < 8 {} else if k < 12 {}
  }

  lemma RowBDivides(k: bv8)
    requires k < 16
    ensures RowB(k) == Shift8((0xB0 | k) as bv64)
  {
    if k < 4 {} else if k < 8 {} else if k < 12 {}
  }

  lemma RowCDivides(k: bv8)
    requires k < 16
    ensures RowC(k) == Shift8((0xC0 | k) as bv64)
  {
    if k < 4 {} else if k < 8 {} else if k < 12 {}
  }

  lemma RowDDivides(k: bv8)
    requires k < 16
    ensures RowD(k) == Shift8((0xD0 | k) as bv64)
  {
    if k < 4 {} else if k < 8 {} else if k < 12 {}
  }

  lemma RowEDivides(k: bv8)
    requires k < 16
    ensures RowE(k) == Shift8((0xE0 | k) as bv64)
  {
    if k < 4 {} else if k < 8 {} else if k < 12 {}
  }

  lemma RowFDivides(k: bv8)
    requires k < 16
    ensures RowF(k) == Shift8((0xF0 | k) as bv64)
  {
    if k < 4 {} else if k < 8 {} else if k < 12 {}
  }

  /** Every entry of the table is the remainder of its index. */
  lemma TableDivides(i: bv8)
    ensures Table(i) == Shift8(i as bv64)
  {
    var k := i & 0x0F;
    assert i == ((i >> 4) << 4) | k && k < 16 && i >> 4 < 16;
    match i >> 4
    case 0 => Row0Divides(k); case 1 => Row1Divides(k); case 2 => Row2Divides(k); case 3 => Row3Divides(k);
    case 4 => Row4Divides(k); case 5 => Row5Divides(k); case 6 => Row6Divides(k); case 7 => Row7Divides(k);
    case 8 => Row8Divides(k); case 9 => Row9Divides(k); case 10 => RowADivides(k); case 11 => RowBDivides(k);
    case 12 => RowCDivides(k); case 13 => RowDDivides(k); case 14 => RowEDivides(k); case _ => RowFDivides(k);
  }

  // ---- Eight bits at once --------------------------------------------------------------------

  lemma XorHalf(x: bv64, y: bv64)
    ensures Half(Xor(x, y)) == Xor(Half(x), Half(y))
  {
  }

  lemma XorOdd(x: bv64, y: bv64)
    ensures Odd(Xor(x, y)) <==> Odd(x) != Odd(y)
  {
  }

  lemma XorAlgebra(a: bv64, b: bv64, p: bv64)
    ensures (a ^ p) ^ b == (a ^ b) ^ p
    ensures a ^ (b ^ p) == (a ^ b) ^ p
    ensures (a ^ p) ^ (b ^ p) == a ^ b
  {
  }

  lemma XorCancel(a: bv64, b: bv64, p: bv64)
    ensures Xor(Xor(a, p), b) == Xor(Xor(a, b), p)
    ensures Xor(a, Xor(b, p)) == Xor(Xor(a, b), p)
    ensures Xor(Xor(a, p), Xor(b, p)) == Xor(a, b)
  {
    XorAlgebra(a, b, p);
  }

  /** Division is linear over exclusive or. */
  lemma ShiftLinear(x: bv64, y: bv64)
    ensures Shift(Xor(x, y)) == Xor(Shift(x), Shift(y))
  {
    hide Xor, Half, Odd;
    XorHalf(x, y);
    XorOdd(x, y);
    XorCancel(Half(x), Half(y), POLY);
  }

  lemma Shift8Linear(x: bv64, y: bv64)
    ensures Shift8(Xor(x, y)) == Xor(Shift8(x), Shift8(y))
  {
    hide Xor, Shift;
    var x1, y1 := Shift(x), Shift(y);
    var x2, y2 := Shift(x1), Shift(y1);
    var x3, y3 := Shift(x2), Shift(y2);
    var x4, y4 := Shift(x3), Shift(y3);
    var x5, y5 := Shift(x4), Shift(y4);
    var x6, y6 := Shift(x5), Shift(y5);
    var x7, y7 := Shift(x6), Shift(y6);
    ShiftLinear(x, y); ShiftLinear(x1, y1); ShiftLinear(x2, y2); ShiftLinear(x3, y3);
    ShiftLinear(x4, y4); ShiftLinear(x5, y5); ShiftLinear(x6, y6); ShiftLinear(x7, y7);
  }

  lemma ShiftEven(z: bv64)
    requires !Odd(z)
    ensures Shift(z) == Half(z)
  {
  }

  function Half8(z: bv64): bv64 {
    Half(Half(Half(Half(Half(Half(Half(Half(z))))))))
  }

  lemma HalfClear(z: bv64, mask: bv64)
    requires mask & 1 == 1 && z & mask == 0
    ensures !Odd(z) && Half(z) & (mask >> 1) == 0
  {
    assert z & 1 == 0;
    assert (z >> 1) & (mask >> 1) == (z & mask) >> 1;
  }

  lemma HalfEight(z: bv64)
    ensures Half8(z) == z >> 8
  {
  }

  lemma LowByteClear(z: bv64)
    requires z & 0xFF == 0
    ensures !Odd(z) && !Odd(Half(z)) && !Odd(Half(Half(z))) && !Odd(Half(Half(Half(z))))
    ensures var y := Half(Half(Half(Half(z))));
            !Odd(y) && !Odd(Half(y)) && !Odd(Half(Half(y))) && !Odd(Half(Half(Half(y))))
  {
    hide Half, Odd;
    var y := Half(Half(Half(Half(z))));
    HalfClear(z, 0xFF); HalfClear(Half(z), 0x7F); HalfClear(Half(Half(z)), 0x3F);
    HalfClear(Half(Half(Half(z))), 0x1F);
    HalfClear(y, 0x0F); HalfClear(Half(y), 0x07); HalfClear(Half(Half(y)), 0x03);
    HalfClear(Half(Half(Half(y))), 0x01);
  }

  /** The upper bytes only move down. */
  lemma Shift8High(z: bv64)
    requires z & 0xFF == 0
    ensures Shift8(z) == Half8(z) == z >> 8
  {
    hide Shift8, Half8, Half, Odd;
    LowByteClear(z);
    Shift8Even(z);
    HalfEight(z);
  }

  lemma Shift8Even(z: bv64)
    requires !Odd(z) && !Odd(Half(z)) && !Odd(Half(Half(z))) && !Odd(Half(Half(Half(z))))
    requires var y := Half(Half(Half(Half(z))));
             !Odd(y) && !Odd(Half(y)) && !Odd(Half(Half(y))) && !Odd(Half(Half(Half(y))))
    ensures Shift8(z) == Half8(z)
  {
    hide Shift, Half, Odd;
    var y := Half(Half(Half(Half(z))));
    ShiftEven(z); ShiftEven(Half(z)); ShiftEven(Half(Half(z))); ShiftEven(Half(Half(Half(z))));
    ShiftEven(y); ShiftEven(Half(y)); ShiftEven(Half(Half(y))); ShiftEven(Half(Half(Half(y))));
  }

  function HighOf(crc: bv64): bv64 { crc & !0xFF }

  lemma ByteSplit(crc: bv64, b: bv8)
    ensures Xor(crc, b as bv64) == Xor(LowOf(crc, b) as bv64, HighOf(crc))
  {
  }

  lemma HighShift(crc: bv64)
    ensures Shift8(HighOf(crc)) == crc >> 8
  {
    hide Shift8;
    Shift8High(HighOf(crc));
  }

  lemma TableStepIsShift8(crc: bv64, b: bv8)
    ensures TableStep(crc, b) == Shift8(Xor(crc, b as bv64))
  {
    hide Shift8, Table, LowOf, HighOf, Xor;
    ByteSplit(crc, b);
    Shift8Linear(LowOf(crc, b) as bv64, HighOf(crc));
    HighShift(crc);
    TableDivides(LowOf(crc, b));
  }

  lemma LowSplit(x: bv64, y: bv64)
    ensures x ^ y == (x ^ (y & 1)) ^ (y & !1)
  {
  }

  lemma SplitLow(x: bv64, y: bv64)
    ensures Xor(x, y) == Xor(Xor(x, Low(Odd(y))), y & !1)
  {
    LowSplit(x, y);
    assert Low(Odd(y)) == y & 1;
  }

  lemma EvenPart(y: bv64)
    ensures !Odd(y & !1) && Half(y & !1) == Half(y)
  {
  }

  /** The lowest bit of y now, the others later. */
  lemma FeedOne(x: bv64, y: bv64)
    ensures Shift(Xor(x, y)) == Xor(Shift(Xor(x, Low(Odd(y)))), Half(y))
  {
    hide Shift, Xor, Odd, Half;
    SplitLow(x, y);
    EvenPart(y);
    ShiftLinear(Xor(x, Low(Odd(y))), y & !1);
    ShiftEven(y & !1);
  }

  lemma DivideCons(crc: bv64, bit: bool, rest: seq<bool>)
    ensures Divide(crc, [bit] + rest) == Divide(Shift(Xor(crc, Low(bit))), rest)
  {
    assert ([bit] + rest)[1..] == rest;
  }

  function Halves(y: bv64, n: nat): bv64 { if n == 0 then y else Half(Halves(y, n - 1)) }

  function Shifts(crc: bv64, n: nat): bv64
    decreases n
  {
    if n == 0 then crc else Shifts(Shift(crc), n - 1)
  }

  /** Feeding n bits one by one leaves the n-fold shift of the whole, less what was not fed. */
  lemma {:induction false} DivideBits(crc: bv64, y: bv64, n: nat, rest: seq<bool>)
    requires Halves(y, n) == 0
    ensures Divide(crc, LowBits(y, n) + rest) == Divide(Shifts(Xor(crc, y), n), rest)
    decreases n
  {
    hide Shift, Xor, Odd, Half, Low;
    if n == 0 {
      XorZero(crc);
      assert LowBits(y, 0) + rest == rest;
    } else {
      HalvesShift(y, n - 1);
      FeedOne(crc, y);
      FeedBits(crc, y, n, rest);
      DivideBits(Shift(Xor(crc, Low(Odd(y)))), Half(y), n - 1, rest);
    }
  }

  lemma FeedBits(crc: bv64, y: bv64, n: nat, rest: seq<bool>)
    requires n > 0
    ensures Divide(crc, LowBits(y, n) + rest) ==
            Divide(Shift(Xor(crc, Low(Odd(y)))), LowBits(Half(y), n - 1) + rest)
  {
    hide Shift, Xor, Odd, Half, Low;
    assert LowBits(y, n) + rest == [Odd(y)] + (LowBits(Half(y), n - 1) + rest);
    DivideCons(crc, Odd(y), LowBits(Half(y), n - 1) + rest);
  }

  lemma XorZero(crc: bv64)
    ensures Xor(crc, 0) == crc
  {
  }

  lemma {:induction false} HalvesShift(y: bv64, n: nat)
    ensures Halves(y, n + 1) == Halves(Half(y), n)
  {
    if n > 0 { HalvesShift(y, n - 1); }
  }

  lemma ByteBits(b: bv8)
    ensures Halves(b as bv64, 8) == 0
  {
    var y := b as bv64;
    ByteIsSmall(b);
    HalfEight(y);
    Halves8(y);
  }

  lemma ByteIsSmall(b: bv8)
    ensures (b as bv64) >> 8 == 0
  {
  }

  lemma Halves8(y: bv64)
    ensures Halves(y, 8) == Half8(y)
  {
    hide Half;
    assert Halves(y, 0) == y;
    assert Halves(y, 1) == Half(y);
    assert Halves(y, 2) == Half(Halves(y, 1));
    assert Halves(y, 3) == Half(Halves(y, 2));
    assert Halves(y, 4) == Half(Halves(y, 3));
    assert Halves(y, 5) == Half(Halves(y, 4));
    assert Halves(y, 6) == Half(Halves(y, 5));
    assert Halves(y, 7) == Half(Halves(y, 6));
  }

  lemma Shifts8(crc: bv64)
    ensures Shifts(crc, 8) == Shift8(crc)
  {
    hide Shift;
    var c2 := Shift(Shift(crc));
    var c4 := Shift(Shift(c2));
    var c6 := Shift(Shift(c4));
    assert Shifts(crc, 8) == Shifts(c2, 6) == Shifts(c4, 4) == Shifts(c6, 2);
  }

  /** The table step is the division of the next eight bits. */
  lemma TableStepDivides(crc: bv64, b: bv8, p: seq<bv8>)
    ensures Crc(crc, [b] + p) == Crc(TableStep(crc, b), p)
  {
    hide Shift8, Shift, Xor, TableStep, LowBits;
    ByteBits(b);
    DivideBits(crc, b as bv64, 8, MessageBits(p));
    Shifts8(Xor(crc, b as bv64));
    TableStepIsShift8(crc, b);
    assert ([b] + p)[1..] == p;
  }

  // ---- The functions of the source -----------------------------------------------------------

  /** CalcCRC64: the table-driven loop computes the remainder of the division. */
  method CalcCrc64(p: seq<bv8>) returns (crc: bv64)
    ensures crc == Crc(0, p)
  {
    hide TableStep;
    crc := 0;
    for i := 0 to |p|
      invariant Crc(0, p) == Crc(crc, p[i..])
    {
      TableStepDivides(crc, p[i], p[i + 1..]);
      assert p[i..] == [p[i]] + p[i + 1..];
      crc := TableStep(crc, p[i]);
    }
    assert p[|p|..] == [];
  }

  class Digest {
    var crc: bv64

    constructor ()
      ensures crc == 0
    {
      crc := 0;
    }

    method Update(p: seq<bv8>)
      modifies this
      ensures crc == Crc(old(crc), p)
    {
      hide TableStep;
      for i := 0 to |p|
        invariant Crc(old(crc), p) == Crc(crc, p[i..])
      {
        TableStepDivides(crc, p[i], p[i + 1..]);
        assert p[i..] == [p[i]] + p[i + 1..];
        crc := TableStep(crc, p[i]);
      }
      assert p[|p|..] == [];
    }
  }

  /** Updating piece by piece is one pass over the whole, wherever the cut is. */
  lemma {:induction false} CrcSplit(crc: bv64, p: seq<bv8>, q: seq<bv8>)
    ensures Crc(crc, p + q) == Crc(Crc(crc, p), q)
    decreases p
  {
    hide TableStep;
    if p == [] {
      assert p + q == q;
    } else {
      var c := TableStep(crc, p[0]);
      TableStepDivides(crc, p[0], p[1..]);
      TableStepDivides(crc, p[0], p[1..] + q);
      assert p == [p[0]] + p[1..] && p + q == [p[0]] + (p[1..] + q);
      CrcSplit(c, p[1..], q);
    }
  }

  function Down(crc: bv64): bv64 { crc >> 8 }

  /** The checksum as it is stored: n bytes, lowest first. */
  function LittleEndian(crc: bv64, n: nat): seq<bv8>
    decreases n
  {
    if n == 0 then [] else [(crc & 0xFF) as bv8] + LittleEndian(Down(crc), n - 1)
  }

  lemma OwnByte(crc: bv64)
    ensures TableStep(crc, (crc & 0xFF) as bv8) == crc >> 8
  {
    assert LowOf(crc, (crc & 0xFF) as bv8) == 0;
    assert Table(0) == 0;
    assert Xor(0, crc >> 8) == crc >> 8;
  }

  function Drop8(crc: bv64, n: nat): bv64
    decreases n
  {
    if n == 0 then crc else Drop8(Down(crc), n - 1)
  }

  lemma {:induction false} OwnBytes(crc: bv64, n: nat)
    ensures Crc(crc, LittleEndian(crc, n)) == Drop8(crc, n)
    decreases n
  {
    if n > 0 {
      hide TableStep;
      OwnByte(crc);
      TableStepDivides(crc, (crc & 0xFF) as bv8, LittleEndian(Down(crc), n - 1));
      OwnBytes(Down(crc), n - 1);
    }
  }

  lemma AllDown(crc: bv64)
    ensures Down(Down(Down(Down(Down(Down(Down(Down(crc)))))))) == 0
  {
  }

  lemma Drop64(crc: bv64)
    ensures Drop8(crc, 8) == 0
  {
    hide Down;
    var c2 := Down(Down(crc));
    var c4 := Down(Down(c2));
    var c6 := Down(Down(c4));
    AllDown(crc);
    assert Drop8(crc, 8) == Drop8(Down(crc), 7) == Drop8(c2, 6);
    assert Drop8(c2, 6) == Drop8(Down(c2), 5) == Drop8(c4, 4);
    assert Drop8(c4, 4) == Drop8(Down(c4), 3) == Drop8(c6, 2);
    assert Drop8(c6, 2) == Drop8(Down(c6), 1) == Drop8(Down(Down(c6)), 0);
  }

  /** A message followed by its own checksum has checksum zero. */
  lemma SealedIsZero(p: seq<bv8>)
    ensures Crc(0, p + LittleEndian(Crc(0, p), 8)) == 0
  {
    CrcSplit(0, p, LittleEndian(Crc(0, p), 8));
    OwnBytes(Crc(0, p), 8);
    Drop64(Crc(0, p));
  }
}
