/** CRC16 of utils/crc16.go against bit-by-bit division by x^16 + x^12 + x^5 + 1 (XMODEM). */
module Crc16 {
  import opened Crc16Table

  const POLY: bv16 := 0x1021

  function Xor(x: bv16, y: bv16): bv16 { x ^ y }

  function Double(x: bv16): bv16 { x << 1 }

  predicate Top(x: bv16) { x & 0x8000 != 0 }

  /** One division step: shift out the highest bit, subtract the polynomial if it was set. */
  function Shift(crc: bv16): bv16 {
    if Top(crc) then Xor(Double(crc), POLY) else Double(crc)
  }

  function High(bit: bool): bv16 { if bit then 0x8000 else 0 }

  /** Long division of a bit string, highest bit of each byte first. */
  function Divide(crc: bv16, message: seq<bool>): bv16
    decreases message
  {
    if message == [] then crc else Divide(Shift(Xor(crc, High(message[0]))), message[1..])
  }

  /** The n highest bits of y, highest first. */
  function HighBits(y: bv16, n: nat): seq<bool>
    decreases n
  {
    if n == 0 then [] else [Top(y)] + HighBits(Double(y), n - 1)
  }

  function AtTop(b: bv8): bv16 { (b as bv16) << 8 }

  function MessageBits(p: seq<bv8>): seq<bool> {
    if p == [] then [] else HighBits(AtTop(p[0]), 8) + MessageBits(p[1..])
  }

  /** CRC16 of a byte string by its definition, continuing from crc. */
  function Crc(crc: bv16, p: seq<bv8>): bv16 { Divide(crc, MessageBits(p)) }

  function TopOf(crc: bv16, b: bv8): bv8 { ((crc >> 8) as bv8) ^ b }

  /** The table-driven step of the code. */
  function TableStep(crc: bv16, b: bv8): bv16 {
    Xor(crc << 8, Table(TopOf(crc, b)))
  }

  function Shift8(crc: bv16): bv16 {
    Shift(Shift(Shift(Shift(Shift(Shift(Shift(Shift(crc))))))))
  }

  // ---- The table -----------------------------------------------------------------------------

  lemma Row0Divides(k: bv8)
    requires k < 16
    ensures Row0(k) == Shift8(AtTop(0x00 | k))
  {
    if k < 4 {} else if k < 8 {} else if k < 12 {}
  }

  lemma Row1Divides(k: bv8)
    requires k < 16
    ensures Row1(k) == Shift8(AtTop(0x10 | k))
  {
    if k < 4 {} else if k < 8 {} else if k < 12 {}
  }

  lemma Row2Divides(k: bv8)
    requires k < 16
    ensures Row2(k) == Shift8(AtTop(0x20 | k))
  {
    if k < 4 {} else if k < 8 {} else if k < 12 {}
  }

  lemma Row3Divides(k: bv8)
    requires k < 16
    ensures Row3(k) == Shift8(AtTop(0x30 | k))
  {
    if k < 4 {} else if k < 8 {} else if k < 12 {}
  }

  lemma Row4Divides(k: bv8)
    requires k < 16
    ensures Row4(k) == Shift8(AtTop(0x40 | k))
  {
    if k < 4 {} else if k < 8 {} else if k < 12 {}
  }

  lemma Row5Divides(k: bv8)
    requires k < 16
    ensures Row5(k) == Shift8(AtTop(0x50 | k))
  {
    if k < 4 {} else if k < 8 {} else if k < 12 {}
  }

  lemma Row6Divides(k: bv8)
    requires k < 16
    ensures Row6(k) == Shift8(AtTop(0x60 | k))
  {
    if k < 4 {} else if k < 8 {} else if k < 12 {}
  }

  lemma Row7Divides(k: bv8)
    requires k < 16
    ensures Row7(k) == Shift8(AtTop(0x70 | k))
  {
    if k < 4 {} else if k < 8 {} else if k < 12 {}
  }

  lemma Row8Divides(k: bv8)
    requires k < 16
    ensures Row8(k) == Shift8(AtTop(0x80 | k))
  {
    if k < 4 {} else if k < 8 {} else if k < 12 {}
  }

  lemma Row9Divides(k: bv8)
    requires k < 16
    ensures Row9(k) == Shift8(AtTop(0x90 | k))
  {
    if k < 4 {} else if k < 8 {} else if k < 12 {}
  }

  lemma RowADivides(k: bv8)
    requires k < 16
    ensures RowA(k) == Shift8(AtTop(0xA0 | k))
  {
    if k < 4 {} else if k < 8 {} else if k < 12 {}
  }

  lemma RowBDivides(k: bv8)
    requires k < 16
    ensures RowB(k) == Shift8(AtTop(0xB0 | k))
  {
    if k < 4 {} else if k < 8 {} else if k < 12 {}
  }

  lemma RowCDivides(k: bv8)
    requires k < 16
    ensures RowC(k) == Shift8(AtTop(0xC0 | k))
  {
    if k < 4 {} else if k < 8 {} else if k < 12 {}
  }

  lemma RowDDivides(k: bv8)
    requires k < 16
    ensures RowD(k) == Shift8(AtTop(0xD0 | k))
  {
    if k < 4 {} else if k < 8 {} else if k < 12 {}
  }

  lemma RowEDivides(k: bv8)
    requires k < 16
    ensures RowE(k) == Shift8(AtTop(0xE0 | k))
  {
    if k < 4 {} else if k < 8 {} else if k < 12 {}
  }

  lemma RowFDivides(k: bv8)
    requires k < 16
    ensures RowF(k) == Shift8(AtTop(0xF0 | k))
  {
    if k < 4 {} else if k < 8 {} else if k < 12 {}
  }

  /** Every entry of the table is the remainder of its index. */
  lemma TableDivides(i: bv8)
    ensures Table(i) == Shift8(AtTop(i))
  {
    hide Shift8;
    var k := i & 0x0F;
    assert i == ((i >> 4) << 4) | k && k < 16 && i >> 4 < 16;
    match i >> 4
    case 0 => Row0Divides(k); case 1 => Row1Divides(k); case 2 => Row2Divides(k); case 3 => Row3Divides(k);
    case 4 => Row4Divides(k); case 5 => Row5Divides(k); case 6 => Row6Divides(k); case 7 => Row7Divides(k);
    case 8 => Row8Divides(k); case 9 => Row9Divides(k); case 10 => RowADivides(k); case 11 => RowBDivides(k);
    case 12 => RowCDivides(k); case 13 => RowDDivides(k); case 14 => RowEDivides(k); case _ => RowFDivides(k);
  }

  // ---- Eight bits at once --------------------------------------------------------------------

  lemma XorDouble(x: bv16, y: bv16)
    ensures Double(Xor(x, y)) == Xor(Double(x), Double(y))
  {
  }

  lemma XorTop(x: bv16, y: bv16)
    ensures Top(Xor(x, y)) <==> Top(x) != Top(y)
  {
  }

  lemma XorLeft(a: bv16, b: bv16, p: bv16)
    ensures Xor(Xor(a, p), b) == Xor(Xor(a, b), p)
  {
  }

  lemma XorRight(a: bv16, b: bv16, p: bv16)
    ensures Xor(a, Xor(b, p)) == Xor(Xor(a, b), p)
  {
  }

  lemma XorTwice(c: bv16, p: bv16)
    ensures Xor(Xor(c, p), p) == c
  {
  }

  lemma XorBoth(a: bv16, b: bv16, p: bv16)
    ensures Xor(Xor(a, p), Xor(b, p)) == Xor(a, b)
  {
    hide Xor;
    XorRight(Xor(a, p), b, p);
    XorLeft(a, b, p);
    XorTwice(Xor(a, b), p);
  }

  lemma XorCommutes(a: bv16, b: bv16)
    ensures Xor(a, b) == Xor(b, a)
  {
  }

  /** Division is linear over exclusive or. */
  lemma ShiftLinear(x: bv16, y: bv16)
    ensures Shift(Xor(x, y)) == Xor(Shift(x), Shift(y))
  {
    hide Xor, Double, Top;
    XorDouble(x, y);
    XorTop(x, y);
    XorBoth(Double(x), Double(y), POLY);
    XorLeft(Double(x), Double(y), POLY);
    XorRight(Double(x), Double(y), POLY);
  }

  lemma Shift8Linear(x: bv16, y: bv16)
    ensures Shift8(Xor(x, y)) == Xor(Shift8(x), Shift8(y))
  {
    hide Xor, Shift;
    var x1, y1 := Shift(x), Shift(y);
    var x2, y2 := Shift(x1), Shift(y1);
    var x3, y3 := Shift(x2), Shift(y2);
    var x4, y4 := Shift(x3), Shift(y3);
    var x5, y5 := Shift(x4), Shift(y4);
    var x6, y6 := Shift(x5), Shift(y5);
    var x7, y7 := Shift(x6), Shift(y6);
    ShiftLinear(x, y); ShiftLinear(x1, y1); ShiftLinear(x2, y2); ShiftLinear(x3, y3);
    ShiftLinear(x4, y4); ShiftLinear(x5, y5); ShiftLinear(x6, y6); ShiftLinear(x7, y7);
  }

  function LowOf(crc: bv16): bv16 { crc & 0x00FF }

  /** The lower byte only moves up. */
  lemma LowShift(crc: bv16)
    ensures Shift8(LowOf(crc)) == crc << 8
  {
  }

  lemma ByteSplit(crc: bv16, b: bv8)
    ensures Xor(crc, AtTop(b)) == Xor(LowOf(crc), AtTop(TopOf(crc, b)))
  {
  }

  lemma TableStepIsShift8(crc: bv16, b: bv8)
    ensures TableStep(crc, b) == Shift8(Xor(crc, AtTop(b)))
  {
    hide Shift8, Table, LowOf, TopOf, Xor, AtTop;
    ByteSplit(crc, b);
    Shift8Linear(LowOf(crc), AtTop(TopOf(crc, b)));
    LowShift(crc);
    TableDivides(TopOf(crc, b));
    XorCommutes(crc << 8, Table(TopOf(crc, b)));
    XorCommutes(Shift8(LowOf(crc)), Shift8(AtTop(TopOf(crc, b))));
  }

  lemma TopSplit(x: bv16, y: bv16)
    ensures x ^ y == (x ^ (y & 0x8000)) ^ (y & 0x7FFF)
  {
  }

  lemma SplitTop(x: bv16, y: bv16)
    ensures Xor(x, y) == Xor(Xor(x, High(Top(y))), y & 0x7FFF)
  {
    TopSplit(x, y);
    TopBit(y);
  }

  lemma TopBit(y: bv16)
    ensures High(Top(y)) == y & 0x8000
  {
  }

  lemma RestPart(y: bv16)
    ensures !Top(y & 0x7FFF) && Double(y & 0x7FFF) == Double(y)
  {
  }

  /** The highest bit of y now, the others later. */
  lemma FeedOne(x: bv16, y: bv16)
    ensures Shift(Xor(x, y)) == Xor(Shift(Xor(x, High(Top(y)))), Double(y))
  {
    hide Xor, Top, Double;
    SplitTop(x, y);
    RestPart(y);
    ShiftLinear(Xor(x, High(Top(y))), y & 0x7FFF);
  }

  lemma DivideCons(crc: bv16, bit: bool, rest: seq<bool>)
    ensures Divide(crc, [bit] + rest) == Divide(Shift(Xor(crc, High(bit))), rest)
  {
    assert ([bit] + rest)[1..] == rest;
  }

  function Doubles(y: bv16, n: nat): bv16
    decreases n
  {
    if n == 0 then y else Doubles(Double(y), n - 1)
  }

  function Shifts(crc: bv16, n: nat): bv16
    decreases n
  {
    if n == 0 then crc else Shifts(Shift(crc), n - 1)
  }

  lemma XorZero(crc: bv16)
    ensures Xor(crc, 0) == crc
  {
  }

  /** Feeding n bits one by one leaves the n-fold shift of the whole. */
  lemma {:induction false} DivideBits(crc: bv16, y: bv16, n: nat, rest: seq<bool>)
    requires Doubles(y, n) == 0
    ensures Divide(crc, HighBits(y, n) + rest) == Divide(Shifts(Xor(crc, y), n), rest)
    decreases n
  {
    hide Shift, Xor, Top, Double;
    if n == 0 {
      XorZero(crc);
      assert HighBits(y, 0) + rest == rest;
    } else {
      var c := Shift(Xor(crc, High(Top(y))));
      FeedOne(crc, y);
      DivideBits(c, Double(y), n - 1, rest);
      assert HighBits(y, n) + rest == [Top(y)] + (HighBits(Double(y), n - 1) + rest);
      DivideCons(crc, Top(y), HighBits(Double(y), n - 1) + rest);
    }
  }

  lemma ByteDoubles(b: bv8)
    ensures Double(Double(Double(Double(Double(Double(Double(Double(AtTop(b))))))))) == 0
  {
  }

  lemma Eightfold(crc: bv16, b: bv8)
    ensures Shifts(crc, 8) == Shift8(crc) && Doubles(AtTop(b), 8) == 0
  {
    hide Shift, Double, AtTop;
    ByteDoubles(b);
    var c2, y2 := Shift(Shift(crc)), Double(Double(AtTop(b)));
    var c4, y4 := Shift(Shift(c2)), Double(Double(y2));
    var c6, y6 := Shift(Shift(c4)), Double(Double(y4));
    assert Shifts(crc, 8) == Shifts(c2, 6) == Shifts(c4, 4) == Shifts(c6, 2);
    assert Doubles(AtTop(b), 8) == Doubles(Double(AtTop(b)), 7) == Doubles(y2, 6);
    assert Doubles(y2, 6) == Doubles(Double(y2), 5) == Doubles(y4, 4);
    assert Doubles(y4, 4) == Doubles(Double(y4), 3) == Doubles(y6, 2);
    assert Doubles(y6, 2) == Doubles(Double(y6), 1) == Double(Double(y6));
  }

  /** The table step is the division of the next eight bits. */
  lemma TableStepDivides(crc: bv16, b: bv8, p: seq<bv8>)
    ensures Crc(crc, [b] + p) == Crc(TableStep(crc, b), p)
  {
    hide Shift8, Shift, Xor, TableStep, HighBits, AtTop;
    Eightfold(Xor(crc, AtTop(b)), b);
    DivideBits(crc, AtTop(b), 8, MessageBits(p));
    TableStepIsShift8(crc, b);
    assert ([b] + p)[1..] == p;
  }

  /** Crc16: the table-driven loop computes the remainder of the division. */
  method Crc16(buf: seq<bv8>) returns (crc: bv16)
    ensures crc == Crc(0, buf)
  {
    hide TableStep;
    crc := 0;
    for i := 0 to |buf|
      invariant Crc(0, buf) == Crc(crc, buf[i..])
    {
      TableStepDivides(crc, buf[i], buf[i + 1..]);
      assert buf[i..] == [buf[i]] + buf[i + 1..];
      crc := TableStep(crc, buf[i]);
    }
    assert buf[|buf|..] == [];
  }
}
