/** rdb/structure/byte.go, int.go and length.go: fixed-width integers and length prefixes. */
module RdbPrimitives {
  import opened Bytes
  import opened Decimal

  /** What a decoder yields on a byte string: a value and the unread rest, or a panic. */
  type Decoded<T> = Option<(T, bytes)>

  /** The command that opens every rewritten value. */
  function Delete(key: bytes): Argv { [Ascii("del"), key] }

  // ---- Bytes ---------------------------------------------------------------------------------

  function DecodeBytes(s: bytes, n: int): (r: Decoded<bytes>)
    ensures r.Some? ==> |r.value.1| <= |s|
  {
    if 0 <= n <= |s| then Some((s[..n], s[n..])) else None
  }

  function DecodeByte(s: bytes): Decoded<byte> {
    if |s| >= 1 then Some((s[0], s[1..])) else None
  }

  method ReadBytes(rd: Reader, n: int) returns (r: Option<bytes>)
    modifies rd
    ensures Did(DecodeBytes(old(rd.rest), n), r, rd.rest)
  {
    if n < 0 || |rd.rest| < n { return None; }
    r := Some(rd.rest[..n]);
    rd.rest := rd.rest[n..];
  }

  method ReadByte(rd: Reader) returns (r: Option<byte>)
    modifies rd
    ensures Did(DecodeByte(old(rd.rest)), r, rd.rest)
  {
    var buf :- ReadBytes(rd, 1);
    return Some(buf[0]);
  }

  lemma BytesAppend(a: bytes, rest: bytes)
    ensures DecodeBytes(a + rest, |a|) == Some((a, rest))
  {
    assert (a + rest)[..|a|] == a && (a + rest)[|a|..] == rest;
  }

  lemma Regroup<T>(a: seq<T>, b: seq<T>, rest: seq<T>)
    ensures a + b + rest == a + (b + rest)
  {
  }

  lemma Cut<T>(a: seq<T>, b: seq<T>)
    ensures (a + b)[..|a|] == a && (a + b)[|a|..] == b
  {
  }

  lemma ByteAppend(b: byte, rest: bytes)
    ensures DecodeByte([b] + rest) == Some((b, rest))
  {
    assert ([b] + rest)[1..] == rest;
  }

  // ---- Integers ------------------------------------------------------------------------------

  function Pow256(k: nat): (p: nat)
    ensures p >= 1
  {
    if k == 0 then 1 else 256 * Pow256(k - 1)
  }

  lemma Widths()
    ensures Pow256(1) == 0x100 && Pow256(2) == 0x1_0000 && Pow256(3) == 0x100_0000
    ensures Pow256(4) == 0x1_0000_0000 && Pow256(8) == 0x1_0000_0000_0000_0000
  {
    assert Pow256(8) == 256 * Pow256(7) == 65536 * Pow256(6) == 0x100_0000 * Pow256(5);
    assert Pow256(5) == 256 * Pow256(4);
    assert Pow256(4) == 256 * Pow256(3) == 65536 * Pow256(2);
    assert Pow256(2) == 256 * Pow256(1);
  }

  /** The k low bytes of n, lowest first. */
  function Little(n: nat, k: nat): (b: bytes)
    ensures |b| == k
    decreases k
  {
    if k == 0 then [] else [n % 256] + Little(n / 256, k - 1)
  }

  /** binary.LittleEndian. */
  function LittleValue(b: bytes): (v: nat)
    ensures v < Pow256(|b|)
  {
    if b == [] then 0 else b[0] + 256 * LittleValue(b[1..])
  }

  /** The k low bytes of n, highest first. */
  function Big(n: nat, k: nat): (b: bytes)
    ensures |b| == k
    decreases k
  {
    if k == 0 then [] else Big(n / 256, k - 1) + [n % 256]
  }

  /** binary.BigEndian. */
  function BigValue(b: bytes): (v: nat)
    ensures v < Pow256(|b|)
  {
    if b == [] then 0 else 256 * BigValue(b[..|b| - 1]) + b[|b| - 1]
  }

  lemma {:induction false} LittleRoundTrip(n: nat, k: nat)
    requires n < Pow256(k)
    ensures LittleValue(Little(n, k)) == n
    decreases k
  {
    if k > 0 {
      LittleRoundTrip(n / 256, k - 1);
      assert Little(n, k)[1..] == Little(n / 256, k - 1);
    }
  }

  lemma {:induction false} BigRoundTrip(n: nat, k: nat)
    requires n < Pow256(k)
    ensures BigValue(Big(n, k)) == n
    decreases k
  {
    if k > 0 {
      BigRoundTrip(n / 256, k - 1);
      assert Big(n, k)[..k - 1] == Big(n / 256, k - 1);
    }
  }

  /** Two's complement over k bytes: the conversions int8(b), int16(v), int32(v), int64(v). */
  function Signed(v: nat, k: nat): int {
    if v < Pow256(k) / 2 then v else v - Pow256(k)
  }

  /** The unsigned value stored for n. */
  function Unsigned(n: int, k: nat): nat
    requires FitsSigned(n, k)
  {
    if n >= 0 then n else n + Pow256(k)
  }

  predicate FitsSigned(n: int, k: nat) {
    0 <= 2 * n + Pow256(k) && 2 * n < Pow256(k)
  }

  lemma PowEven(k: nat)
    requires k > 0
    ensures Pow256(k) % 2 == 0
  {
    assert Pow256(k) == 2 * (128 * Pow256(k - 1));
  }

  lemma SignedUnsigned(n: int, k: nat)
    requires FitsSigned(n, k) && k > 0
    ensures Unsigned(n, k) < Pow256(k) && Signed(Unsigned(n, k), k) == n
  {
    hide Pow256;
    PowEven(k);
  }

  function DecodeUint(s: bytes, k: nat): (r: Decoded<nat>)
    ensures r.Some? ==> |r.value.1| <= |s|
  {
    var (b, rest) :- DecodeBytes(s, k);
    Some((LittleValue(b), rest))
  }

  function DecodeInt(s: bytes, k: nat): (r: Decoded<int>)
    ensures r.Some? ==> |r.value.1| <= |s|
  {
    var (v, rest) :- DecodeUint(s, k);
    var n: int := Signed(v, k);
    Some((n, rest))
  }

  /** ReadUint8, ReadUint16, ReadUint24, ReadUint32 and ReadUint64 for k = 1, 2, 3, 4, 8. */
  method ReadUint(rd: Reader, k: nat) returns (r: Option<nat>)
    modifies rd
    ensures Did(DecodeUint(old(rd.rest), k), r, rd.rest)
  {
    var b :- ReadBytes(rd, k);
    return Some(LittleValue(b));
  }

  /** ReadInt8, ReadInt16, ReadInt32 and ReadInt64 for k = 1, 2, 4, 8. */
  method ReadInt(rd: Reader, k: nat) returns (r: Option<int>)
    modifies rd
    ensures Did(DecodeInt(old(rd.rest), k), r, rd.rest)
  {
    var b :- ReadBytes(rd, k);
    return Some(Signed(LittleValue(b), k));
  }

  /** ReadInt24: a zero byte below, read as 32 bits, then an arithmetic shift right by 8. */
  method ReadInt24(rd: Reader) returns (r: Option<int>)
    modifies rd
    ensures Did(DecodeInt(old(rd.rest), 3), r, rd.rest)
  {
    var b :- ReadBytes(rd, 3);
    var wide := [0] + b;
    Int24Shift(b);
    return Some(Signed(LittleValue(wide), 4) / 256);
  }

  /** The shift extends the sign of the 24-bit value. */
  lemma Int24Shift(b: bytes)
    requires |b| == 3
    ensures Signed(LittleValue([0] + b), 4) / 256 == Signed(LittleValue(b), 3)
  {
    Widths();
    assert ([0] + b)[1..] == b;
    assert LittleValue([0] + b) == 256 * LittleValue(b);
  }

  lemma UintAppend(n: nat, k: nat, rest: bytes)
    requires n < Pow256(k)
    ensures DecodeUint(Little(n, k) + rest, k) == Some((n, rest))
  {
    BytesAppend(Little(n, k), rest);
    LittleRoundTrip(n, k);
  }

  lemma IntAppend(n: int, k: nat, rest: bytes)
    requires k > 0 && FitsSigned(n, k)
    ensures DecodeInt(Little(Unsigned(n, k), k) + rest, k) == Some((n, rest))
  {
    SignedUnsigned(n, k);
    UintAppend(Unsigned(n, k), k, rest);
  }

  // ---- Lengths -------------------------------------------------------------------------------

  datatype Length = Plain(n: nat) | Special(encoding: nat)

  /** readEncodedLength. */
  function DecodeEncodedLength(s: bytes): (r: Decoded<Length>)
    ensures r.Some? ==> |r.value.1| < |s|
  {
    var (first, rest) :- DecodeByte(s);
    var low := first % 64;
    if first / 64 == 0 then Some((Plain(low), rest))
    else if first / 64 == 1 then
      var (next, rest) :- DecodeByte(rest);
      Some((Plain(low * 256 + next), rest))
    else if first / 64 == 3 then Some((Special(low), rest))
    else if first == 0x80 then
      var (b, rest) :- DecodeBytes(rest, 4);
      Some((Plain(BigValue(b)), rest))
    else if first == 0x81 then
      var (b, rest) :- DecodeBytes(rest, 8);
      Some((Plain(BigValue(b)), rest))
    else None
  }

  function DecodeLength(s: bytes): (r: Decoded<nat>)
    ensures r.Some? ==> |r.value.1| < |s|
  {
    var (length, rest) :- DecodeEncodedLength(s);
    if length.Plain? then Some((length.n, rest)) else None
  }

  method ReadEncodedLength(rd: Reader) returns (r: Option<Length>)
    modifies rd
    ensures Did(DecodeEncodedLength(old(rd.rest)), r, rd.rest)
  {
    var firstByte :- ReadByte(rd);
    var first2bits := firstByte / 64;
    if first2bits == 0 {
      return Some(Plain(firstByte % 64));
    } else if first2bits == 1 {
      var nextByte :- ReadByte(rd);
      var high: nat, low: nat := firstByte % 64, nextByte;
      return Some(Plain(high * 256 + low));
    } else if first2bits == 2 {
      if firstByte == 0x80 {
        var lengthBuffer :- ReadBytes(rd, 4);
        return Some(Plain(BigValue(lengthBuffer)));
      } else if firstByte == 0x81 {
        var lengthBuffer :- ReadBytes(rd, 8);
        return Some(Plain(BigValue(lengthBuffer)));
      }
      return None;
    }
    return Some(Special(firstByte % 64));
  }

  method ReadLength(rd: Reader) returns (r: Option<nat>)
    modifies rd
    ensures Did(DecodeLength(old(rd.rest)), r, rd.rest)
  {
    var length :- ReadEncodedLength(rd);
    if length.Special? { return None; }
    return Some(length.n);
  }

  /** An int64 sum or difference. */
  function Wrap(n: int): (r: int64) {
    var m := n % 0x1_0000_0000_0000_0000;
    if m < 0x8000_0000_0000_0000 then m else m - 0x1_0000_0000_0000_0000
  }

  /** How often a loop up to int(length) runs. */
  function Turns(length: nat): nat { if Signed(length, 8) < 0 then 0 else Signed(length, 8) }

  lemma TurnsSmall(n: nat)
    requires n <= MAX_INT64
    ensures Signed(n, 8) == n && Turns(n) == n
  {
    Widths();
  }

  /** The count field of packed lists saturates at 65535, which Redis reads as "count them yourself". */
  function CountField(n: nat): (c: nat)
    ensures c <= 65535 && c < Pow256(2)
  {
    Widths();
    if n < 65535 then n else 65535
  }

  /** The four ways the RDB format may write a length. */
  datatype LengthForm = Len6 | Len14 | Len32 | Len64

  predicate FitsForm(n: nat, form: LengthForm) {
    match form
    case Len6 => n < 0x40
    case Len14 => n < 0x4000
    case Len32 => n < Pow256(4)
    case Len64 => n < Pow256(8)
  }

  function LengthBytes(n: nat, form: LengthForm): bytes
    requires FitsForm(n, form)
  {
    match form
    case Len6 => [n]
    case Len14 => [0x40 + n / 256, n % 256]
    case Len32 => [0x80] + Big(n, 4)
    case Len64 => [0x81] + Big(n, 8)
  }

  lemma Length14(n: nat, rest: bytes)
    requires n < 0x4000
    ensures DecodeEncodedLength([0x40 + n / 256, n % 256] + rest) == Some((Plain(n), rest))
  {
    assert [0x40 + n / 256, n % 256] + rest == [0x40 + n / 256] + ([n % 256] + rest);
    ByteAppend(0x40 + n / 256, [n % 256] + rest);
    ByteAppend(n % 256, rest);
    assert (0x40 + n / 256) / 64 == 1 && (0x40 + n / 256) % 64 * 256 + n % 256 == n;
  }

  lemma LengthWide(n: nat, k: nat, rest: bytes)
    requires n < Pow256(k) && (k == 4 || k == 8)
    ensures DecodeEncodedLength([if k == 4 then 0x80 else 0x81] + Big(n, k) + rest) == Some((Plain(n), rest))
  {
    hide Pow256, Big, BigValue;
    var first: byte := if k == 4 then 0x80 else 0x81;
    assert [first] + Big(n, k) + rest == [first] + (Big(n, k) + rest);
    ByteAppend(first, Big(n, k) + rest);
    BytesAppend(Big(n, k), rest);
    BigRoundTrip(n, k);
  }

  /** Every form of every length reads back as that length, and nothing behind it is touched. */
  lemma LengthRoundTrip(n: nat, form: LengthForm, rest: bytes)
    requires FitsForm(n, form)
    ensures DecodeEncodedLength(LengthBytes(n, form) + rest) == Some((Plain(n), rest))
    ensures DecodeLength(LengthBytes(n, form) + rest) == Some((n, rest))
  {
    hide Pow256, Big;
    match form
    case Len6 =>
      ByteAppend(n, rest);
    case Len14 =>
      Length14(n, rest);
    case Len32 =>
      LengthWide(n, 4, rest);
    case Len64 =>
      LengthWide(n, 8, rest);
  }

  /** A first byte from 0x80 to 0xBF starts a length only if it is one of the two lowest; a special encoding is
      not a length. */
  lemma IllegalLength(first: byte, rest: bytes)
    ensures 0x82 <= first < 0xC0 ==> DecodeEncodedLength([first] + rest) == None
    ensures 0x82 <= first ==> DecodeLength([first] + rest) == None
  {
    ByteAppend(first, rest);
  }
}
