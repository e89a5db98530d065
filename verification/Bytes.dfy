/** Byte strings. A Go string or byte slice is a sequence of numbers below 256. */
module Bytes {

  type byte = x: int | 0 <= x < 256
  type bytes = seq<byte>

  /** One command: its name and arguments. */
  type Argv = seq<bytes>

  datatype Option<+T> = None | Some(value: T) {
    predicate IsFailure() { None? }

    function PropagateFailure<U>(): Option<U>
      requires None?
    {
      None
    }

    function Extract(): T
      requires Some?
    {
      value
    }
  }

  const CR: byte := 13
  const LF: byte := 10
  const CRLF: bytes := [CR, LF]

  /** The bytes of an ASCII literal. */
  function Ascii(s: string): (b: bytes)
    ensures |b| == |s|
    ensures forall i :: 0 <= i < |s| ==> b[i] == (s[i] as int) % 256
  {
    seq(|s|, i requires 0 <= i < |s| => (s[i] as int) % 256)
  }

  function LowerByte(c: byte): byte {
    if 65 <= c <= 90 then c + 32 else c
  }

  function Lower(s: bytes): (r: bytes)
    ensures |r| == |s|
    ensures forall i :: 0 <= i < |s| ==> r[i] == LowerByte(s[i])
  {
    seq(|s|, i requires 0 <= i < |s| => LowerByte(s[i]))
  }

  /** strings.EqualFold on ASCII text. */
  predicate EqualFold(s: bytes, t: bytes) {
    Lower(s) == Lower(t)
  }

  /** Equal but for the case of ASCII letters, letter by letter. */
  predicate SameLetters(s: bytes, t: bytes) {
    |s| == |t| && forall i :: 0 <= i < |s| ==>
      s[i] == t[i] || (65 <= s[i] <= 90 && t[i] == s[i] + 32) || (65 <= t[i] <= 90 && s[i] == t[i] + 32)
  }

  lemma FoldLetters(s: bytes, t: bytes)
    ensures EqualFold(s, t) <==> SameLetters(s, t)
  {
    if EqualFold(s, t) {
      assert |Lower(s)| == |Lower(t)|;
      forall i | 0 <= i < |s|
        ensures s[i] == t[i] || (65 <= s[i] <= 90 && t[i] == s[i] + 32) || (65 <= t[i] <= 90 && s[i] == t[i] + 32)
      {
        assert Lower(s)[i] == Lower(t)[i];
      }
    }
  }

  function AsBits(s: bytes): (r: seq<bv8>)
    ensures |r| == |s|
  {
    seq(|s|, i requires 0 <= i < |s| => s[i] as bv8)
  }

  function AsBytes(s: seq<bv8>): (r: bytes)
    ensures |r| == |s|
  {
    seq(|s|, i requires 0 <= i < |s| => s[i] as int)
  }

  /** The position of the first c in s, or |s|. */
  function Find(c: byte, s: bytes): (k: nat)
    ensures k <= |s| && (k < |s| ==> s[k] == c)
    ensures forall a :: 0 <= a < k ==> s[a] != c
  {
    if s == [] || s[0] == c then 0 else 1 + Find(c, s[1..])
  }

  /** io.Reader with the bytes still to come. */
  class Reader {
    var rest: bytes

    constructor (data: bytes)
      ensures rest == data
    {
      rest := data;
    }
  }

  /** A reading method did what its decoder says: same value, and the cursor right behind it. */
  ghost predicate Did<T>(spec: Option<(T, bytes)>, r: Option<T>, now: bytes) {
    match spec
    case None => r.None?
    case Some(got) => r == Some(got.0) && now == got.1
  }

  /** Concatenation of a list of byte strings. */
  function Flatten(parts: seq<bytes>): bytes {
    if parts == [] then [] else parts[0] + Flatten(parts[1..])
  }
}

/** strconv: decimal text of integers, and the parsers that read it back. */
module Decimal {
  import opened Bytes

  const MIN_INT64 := -0x8000_0000_0000_0000
  const MAX_INT64 := 0x7FFF_FFFF_FFFF_FFFF
  const MAX_UINT64 := 0xFFFF_FFFF_FFFF_FFFF

  type int64 = x: int | MIN_INT64 <= x <= MAX_INT64
  type uint64 = x: int | 0 <= x <= MAX_UINT64

  const MINUS: byte := 45
  const PLUS: byte := 43

  predicate IsDigit(c: byte) { 48 <= c <= 57 }

  predicate AllDigits(s: bytes) {
    forall i :: 0 <= i < |s| ==> IsDigit(s[i])
  }

  /** Decimal digits, most significant first, no leading zero. */
  function Digits(n: nat): (s: bytes)
    ensures |s| >= 1 && AllDigits(s)
  {
    if n < 10 then [48 + n] else Digits(n / 10) + [48 + n % 10]
  }

  /** strconv.Itoa, FormatInt and FormatUint in base 10. */
  function Itoa(n: int): (s: bytes)
    ensures |s| >= 1 && (IsDigit(s[0]) || s[0] == MINUS)
    ensures forall i :: 0 < i < |s| ==> IsDigit(s[i])
  {
    if n < 0 then [MINUS] + Digits(-n) else Digits(n)
  }

  /** Value of a non-empty digit string. */
  function DigitsValue(s: bytes): Option<nat> {
    if s == [] then None
    else if !IsDigit(s[|s| - 1]) then None
    else if |s| == 1 then Some(s[0] - 48)
    else match DigitsValue(s[..|s| - 1])
      case None => None
      case Some(v) => Some(v * 10 + (s[|s| - 1] - 48))
  }

  /** An optional sign, then digits; the unbounded value. */
  function SignedValue(s: bytes): Option<int> {
    if s == [] then None
    else
      var negative := s[0] == MINUS;
      var digits := if negative || s[0] == PLUS then s[1..] else s;
      var v := DigitsValue(digits);
      if v.None? then None
      else
        var magnitude: int := v.value;
        var signed: int := if negative then -magnitude else magnitude;
        Some(signed)
  }

  /** strconv.Atoi and strconv.ParseInt(s, 10, 64): None is the error result. */
  function ParseInt(s: bytes): Option<int64> {
    match SignedValue(s)
    case None => None
    case Some(v) => if MIN_INT64 <= v <= MAX_INT64 then Some(v) else None
  }

  lemma {:induction false} DigitsRoundTrip(n: nat)
    ensures DigitsValue(Digits(n)) == Some(n)
  {
    if n >= 10 {
      DigitsRoundTrip(n / 10);
      var s := Digits(n);
      assert s[..|s| - 1] == Digits(n / 10);
    }
  }

  lemma {:induction false} SignedRoundTrip(n: int)
    ensures SignedValue(Itoa(n)) == Some(n)
  {
    if n < 0 {
      DigitsRoundTrip(-n);
      assert Itoa(n)[1..] == Digits(-n);
    } else {
      DigitsRoundTrip(n);
    }
  }

  /** ParseInt reads back exactly what Itoa wrote, for every 64-bit integer. */
  lemma {:induction false} ParseItoa(n: int64)
    ensures ParseInt(Itoa(n)) == Some(n)
  {
    SignedRoundTrip(n);
  }

  lemma {:induction false} ItoaInjective(a: int, b: int)
    requires Itoa(a) == Itoa(b)
    ensures a == b
  {
    SignedRoundTrip(a);
    SignedRoundTrip(b);
  }

  /** Decimal text is never the text of another line type: no CR, LF or dash after the first byte. */
  lemma ItoaHasNoLineBreak(n: int)
    ensures CR !in Itoa(n) && LF !in Itoa(n)
  {
  }
}
