/** ReadString of rdb/structure/string.go: raw, integer and compressed strings. */
module RdbString {
  import opened Bytes
  import opened Decimal
  import opened Lzf
  import opened RdbPrimitives

  const ENC_INT8 := 0
  const ENC_INT16 := 1
  const ENC_INT32 := 2
  const ENC_LZF := 3

  function DecodeNumber(s: bytes, k: nat): (r: Decoded<bytes>)
    ensures r.Some? ==> |r.value.1| <= |s|
  {
    var (n, rest) :- DecodeInt(s, k);
    Some((Itoa(n), rest))
  }

  function DecodeLzf(s: bytes): (r: Decoded<bytes>)
    ensures r.Some? ==> |r.value.1| <= |s|
  {
    var (inLen, rest) :- DecodeLength(s);
    var (outLen, rest) :- DecodeLength(rest);
    var (input, rest) :- DecodeBytes(rest, Signed(inLen, 8));
    var size := Signed(outLen, 8);
    if size < 0 then None
    else
      var text :- Unpack(input, [], size);
      Some((text, rest))
  }

  function DecodeString(s: bytes): (r: Decoded<bytes>)
    ensures r.Some? ==> |r.value.1| < |s|
  {
    var (length, rest) :- DecodeEncodedLength(s);
    match length
    case Plain(n) => DecodeBytes(rest, Signed(n, 8))
    case Special(encoding) =>
      if encoding == ENC_INT8 then DecodeNumber(rest, 1)
      else if encoding == ENC_INT16 then DecodeNumber(rest, 2)
      else if encoding == ENC_INT32 then DecodeNumber(rest, 4)
      else if encoding == ENC_LZF then DecodeLzf(rest)
      else None
  }

  method ReadString(rd: Reader) returns (r: Option<bytes>)
    modifies rd
    ensures Did(DecodeString(old(rd.rest)), r, rd.rest)
  {
    hide DecodeEncodedLength, DecodeLength, DecodeBytes, DecodeInt, Unpack, Signed, Itoa;
    var length :- ReadEncodedLength(rd);
    match length
    case Plain(n) =>
      r := ReadBytes(rd, Signed(n, 8));
    case Special(encoding) =>
      if encoding == ENC_INT8 {
        var b :- ReadInt(rd, 1);
        return Some(Itoa(b));
      } else if encoding == ENC_INT16 {
        var b :- ReadInt(rd, 2);
        return Some(Itoa(b));
      } else if encoding == ENC_INT32 {
        var b :- ReadInt(rd, 4);
        return Some(Itoa(b));
      } else if encoding == ENC_LZF {
        var inLen :- ReadLength(rd);
        var outLen :- ReadLength(rd);
        var input :- ReadBytes(rd, Signed(inLen, 8));
        r := LzfDecompress(input, Signed(outLen, 8));
      } else {
        return None;
      }
  }

  // ---- The format ----------------------------------------------------------------------------

  /** The ways the RDB format may write a string. */
  datatype StringForm =
    | Raw(text: bytes, form: LengthForm)
    | Number(n: int, width: nat)
    | Packed(tokens: seq<Token>, inForm: LengthForm, outForm: LengthForm)

  predicate ValidString(s: StringForm) {
    match s
    case Raw(text, form) => FitsForm(|text|, form) && |text| <= MAX_INT64
    case Number(n, width) => width in {1, 2, 4} && FitsSigned(n, width)
    case Packed(tokens, inForm, outForm) =>
      && ValidTokens(tokens, [])
      && FitsForm(|EncodeAll(tokens, [])|, inForm) && |EncodeAll(tokens, [])| <= MAX_INT64
      && FitsForm(|Text(tokens, [])|, outForm) && |Text(tokens, [])| <= MAX_INT64
  }

  /** The string value. */
  function StringText(s: StringForm): bytes
    requires ValidString(s)
  {
    match s
    case Raw(text, _) => text
    case Number(n, _) => Itoa(n)
    case Packed(tokens, _, _) => Text(tokens, [])
  }

  function StringBytes(s: StringForm): bytes
    requires ValidString(s)
  {
    match s
    case Raw(text, form) => LengthBytes(|text|, form) + text
    case Number(n, width) => [0xC0 + width / 2] + Little(Unsigned(n, width), width)
    case Packed(tokens, inForm, outForm) =>
      var input := EncodeAll(tokens, []);
      [0xC3] + LengthBytes(|input|, inForm) + LengthBytes(|Text(tokens, [])|, outForm) + input
  }

  lemma SpecialAppend(encoding: nat, rest: bytes)
    requires encoding < 4
    ensures DecodeEncodedLength([0xC0 + encoding] + rest) == Some((Special(encoding), rest))
  {
    ByteAppend(0xC0 + encoding, rest);
  }

  lemma RawRoundTrip(text: bytes, form: LengthForm, rest: bytes)
    requires FitsForm(|text|, form) && |text| <= MAX_INT64
    ensures DecodeString(LengthBytes(|text|, form) + text + rest) == Some((text, rest))
  {
    hide DecodeEncodedLength, DecodeBytes, LengthBytes, Signed;
    var length := LengthBytes(|text|, form);
    assert length + text + rest == length + (text + rest);
    LengthRoundTrip(|text|, form, text + rest);
    TurnsSmall(|text|);
    BytesAppend(text, rest);
  }

  lemma NumberRoundTrip(n: int, width: nat, rest: bytes)
    requires width in {1, 2, 4} && FitsSigned(n, width)
    ensures DecodeString([0xC0 + width / 2] + Little(Unsigned(n, width), width) + rest) == Some((Itoa(n), rest))
  {
    hide DecodeEncodedLength, DecodeInt, Little, Unsigned, Itoa, FitsSigned;
    var digits := Little(Unsigned(n, width), width);
    assert [0xC0 + width / 2] + digits + rest == [0xC0 + width / 2] + (digits + rest);
    SpecialAppend(width / 2, digits + rest);
    IntAppend(n, width, rest);
  }

  lemma PackedRoundTrip(tokens: seq<Token>, inForm: LengthForm, outForm: LengthForm, rest: bytes)
    requires ValidString(Packed(tokens, inForm, outForm))
    ensures DecodeString(StringBytes(Packed(tokens, inForm, outForm)) + rest) == Some((Text(tokens, []), rest))
  {
    hide DecodeEncodedLength, DecodeLength, DecodeBytes, LengthBytes, EncodeAll, Text, Unpack, Signed, FitsForm;
    var input, text := EncodeAll(tokens, []), Text(tokens, []);
    var inLen, outLen := LengthBytes(|input|, inForm), LengthBytes(|text|, outForm);
    var all := [0xC3] + inLen + outLen + input + rest;
    assert all == [0xC3] + (inLen + (outLen + (input + rest)));
    SpecialAppend(3, inLen + (outLen + (input + rest)));
    LengthRoundTrip(|input|, inForm, outLen + (input + rest));
    LengthRoundTrip(|text|, outForm, input + rest);
    TurnsSmall(|input|);
    TurnsSmall(|text|);
    BytesAppend(input, rest);
    LzfRoundTrip(tokens, [], |text|);
  }

  /** However a string is written, ReadString yields its text and stops right behind it. */
  lemma StringRoundTrip(s: StringForm, rest: bytes)
    requires ValidString(s)
    ensures DecodeString(StringBytes(s) + rest) == Some((StringText(s), rest))
  {
    hide DecodeString, LengthBytes, Little;
    match s
    case Raw(text, form) => RawRoundTrip(text, form, rest);
    case Number(n, width) => NumberRoundTrip(n, width, rest);
    case Packed(tokens, inForm, outForm) => PackedRoundTrip(tokens, inForm, outForm, rest);
  }

  /** Every other special encoding panics. */
  lemma UnknownEncoding(encoding: nat, rest: bytes)
    requires 4 <= encoding < 0x40
    ensures DecodeString([0xC0 + encoding] + rest) == None
  {
    ByteAppend(0xC0 + encoding, rest);
  }

  // ---- Parts of larger values, each written in front of what follows --------------------------

  /** A length together with the form it is written in. */
  datatype Num = Num(n: nat, form: LengthForm)

  predicate ValidNum(x: Num) { FitsForm(x.n, x.form) }

  /** A count written as a length: it must fit the form and an int. */
  predicate ValidCount(n: nat, form: LengthForm) { FitsForm(n, form) && n <= MAX_INT64 }

  function PutNum(x: Num, rest: bytes): bytes
    requires ValidNum(x)
  {
    LengthBytes(x.n, x.form) + rest
  }

  function PutCount(n: nat, form: LengthForm, rest: bytes): bytes
    requires ValidCount(n, form)
  {
    LengthBytes(n, form) + rest
  }

  function PutString(s: StringForm, rest: bytes): bytes
    requires ValidString(s)
  {
    StringBytes(s) + rest
  }

  function PutTime(t: nat, rest: bytes): bytes { Little(t, 8) + rest }

  lemma NumBack(x: Num, rest: bytes)
    requires ValidNum(x)
    ensures DecodeLength(PutNum(x, rest)) == Some((x.n, rest))
  {
    hide DecodeLength, LengthBytes, FitsForm;
    LengthRoundTrip(x.n, x.form, rest);
  }

  lemma CountBack(n: nat, form: LengthForm, rest: bytes)
    requires ValidCount(n, form)
    ensures DecodeLength(PutCount(n, form, rest)) == Some((n, rest))
    ensures Turns(n) == n && Signed(n, 8) == n
  {
    hide DecodeLength, LengthBytes, FitsForm, Signed;
    LengthRoundTrip(n, form, rest);
    TurnsSmall(n);
  }

  lemma TimeBack(t: nat, rest: bytes)
    requires t < Pow256(8)
    ensures DecodeUint(PutTime(t, rest), 8) == Some((t, rest))
  {
    hide Pow256, Little, DecodeUint;
    UintAppend(t, 8, rest);
  }

  lemma NameBack(s: StringForm, rest: bytes)
    requires ValidString(s)
    ensures DecodeString(PutString(s, rest)) == Some((StringText(s), rest))
  {
    StringRoundTrip(s, rest);
  }

  function SkipLengths(s: bytes, n: nat): (r: Decoded<int>)
    ensures r.Some? ==> |r.value.1| <= |s| && (n > 0 ==> |r.value.1| < |s|)
    decreases n
  {
    if n == 0 then Some((0, s))
    else
      var (_, rest) :- DecodeLength(s);
      SkipLengths(rest, n - 1)
  }

  predicate ValidNums(xs: seq<Num>) { forall k :: 0 <= k < |xs| ==> ValidNum(xs[k]) }

  function PutNums(xs: seq<Num>, rest: bytes): bytes
    requires ValidNums(xs)
  {
    if xs == [] then rest else PutNum(xs[0], PutNums(xs[1..], rest))
  }

  lemma {:induction false} NumsBack(xs: seq<Num>, rest: bytes)
    requires ValidNums(xs)
    ensures SkipLengths(PutNums(xs, rest), |xs|) == Some((0, rest))
    decreases xs
  {
    hide DecodeLength, PutNum, ValidNum;
    if xs != [] {
      NumBack(xs[0], PutNums(xs[1..], rest));
      NumsBack(xs[1..], rest);
    }
  }

  lemma NoNums(rest: bytes)
    ensures SkipLengths(rest, 0) == Some((0, rest))
  {
  }

  lemma OneNum(x: Num, rest: bytes)
    requires ValidNum(x)
    ensures SkipLengths(PutNum(x, rest), 1) == Some((0, rest))
  {
    hide DecodeLength, PutNum, ValidNum;
    NumBack(x, rest);
    NoNums(rest);
  }
}
