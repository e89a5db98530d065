/** lzfDecompress of rdb/structure/string.go. */
module Lzf {
  import opened Bytes

  // ---- The format ----------------------------------------------------------------------------

  datatype Token = Literal(text: bytes) | Copy(distance: nat, length: nat)

  /** A token the format can hold, after n bytes of output. */
  predicate ValidToken(t: Token, n: nat) {
    match t
    case Literal(text) => 1 <= |text| <= 32
    case Copy(distance, length) => 1 <= distance <= 8192 && distance <= n && 3 <= length <= 264
  }

  /** A back-reference repeats the last distance bytes for as long as it has to. */
  function Repeat(out: bytes, distance: nat, n: nat): (r: bytes)
    requires 1 <= distance <= |out|
    ensures |r| == n
  {
    seq(n, k requires 0 <= k < n => out[|out| - distance + k % distance])
  }

  function TokenText(t: Token, out: bytes): (r: bytes)
    requires ValidToken(t, |out|)
    ensures |r| >= 1
  {
    match t
    case Literal(text) => text
    case Copy(distance, length) => Repeat(out, distance, length)
  }

  predicate ValidTokens(tokens: seq<Token>, out: bytes) {
    tokens == [] ||
    (ValidToken(tokens[0], |out|) && ValidTokens(tokens[1..], out + TokenText(tokens[0], out)))
  }

  /** The text a token sequence stands for, behind the text out. */
  function Text(tokens: seq<Token>, out: bytes): bytes
    requires ValidTokens(tokens, out)
  {
    if tokens == [] then out else Text(tokens[1..], out + TokenText(tokens[0], out))
  }

  function Encode(t: Token): (b: bytes)
    requires t.Literal? ==> 1 <= |t.text| <= 32
    requires t.Copy? ==> 1 <= t.distance <= 8192 && 3 <= t.length <= 264
    ensures b != []
  {
    match t
    case Literal(text) => [|text| - 1] + text
    case Copy(distance, length) =>
      var high, low := (distance - 1) / 256, (distance - 1) % 256;
      if length < 9 then [(length - 2) * 32 + high, low] else [7 * 32 + high, length - 9, low]
  }

  function EncodeAll(tokens: seq<Token>, out: bytes): bytes
    requires ValidTokens(tokens, out)
  {
    if tokens == [] then []
    else Encode(tokens[0]) + EncodeAll(tokens[1..], out + TokenText(tokens[0], out))
  }

  // ---- The decoder ---------------------------------------------------------------------------

  /** What one control byte stands for: a literal of n bytes, or n bytes from distance back. */
  datatype Step = Plain(n: nat) | Back(distance: nat, n: nat)

  function DistanceOf(ctrl: nat, low: nat): (d: nat)
    ensures d >= 1
  {
    ctrl % 32 * 256 + low + 1
  }

  /** The control byte and what belongs to it; None where the input ends too early. */
  function NextStep(input: bytes): (r: Option<(Step, bytes)>)
    requires input != []
    ensures r.Some? ==> |r.value.1| < |input|
    ensures r.Some? && r.value.0.Back? ==> r.value.0.distance >= 1
  {
    var ctrl := input[0];
    if ctrl < 32 then Some((Plain(ctrl + 1), input[1..]))
    else
      var long := ctrl / 32 == 7;
      if |input| < (if long then 3 else 2) then None
      else
        var next: nat, ctrl: nat := input[1], ctrl;
        var length := if long then 7 + next else ctrl / 32;
        var low: nat := if long then input[2] else next;
        Some((Back(DistanceOf(ctrl, low), length + 2), input[(if long then 3 else 2)..]))
  }

  /** The output so far, continued; None is an index out of range or the final length check. */
  function Unpack(input: bytes, out: bytes, outLen: nat): (r: Option<bytes>)
    ensures r.Some? ==> |r.value| == outLen
    decreases |input|
  {
    if input == [] then (if |out| == outLen then Some(out) else None)
    else
      var (step, rest) :- NextStep(input);
      if outLen < |out| + step.n then None
      else match step
        case Plain(n) => if |rest| < n then None else Unpack(rest[n..], out + rest[..n], outLen)
        case Back(distance, n) =>
          if |out| < distance then None else Unpack(rest, out + Repeat(out, distance, n), outLen)
  }

  /** Adding one byte from distance back lengthens the repetition by one. */
  lemma RepeatStep(out: bytes, distance: nat, x: nat)
    requires 1 <= distance <= |out|
    ensures var now := out + Repeat(out, distance, x);
            now + [now[|now| - distance]] == out + Repeat(out, distance, x + 1)
  {
    var now := out + Repeat(out, distance, x);
    var next := Repeat(out, distance, x + 1);
    assert next[..x] == Repeat(out, distance, x);
    if x < distance {
      assert now[|now| - distance] == out[|out| - distance + x] && x % distance == x;
    } else {
      PeriodBack(x, distance);
      assert now[|now| - distance] == Repeat(out, distance, x)[x - distance];
    }
    assert next == next[..x] + [next[x]];
  }

  lemma PeriodBack(x: nat, d: nat)
    requires 1 <= d <= x
    ensures (x - d) % d == x % d
  {
    var q, r := x / d, x % d;
    assert x == d * q + r;
    assert x - d == d * (q - 1) + r;
    Remainder(x - d, d, q - 1, r);
  }

  lemma Remainder(x: nat, d: nat, q: int, r: nat)
    requires x == d * q + r && r < d
    ensures x % d == r
  {
    assert x == d * (x / d) + x % d;
    MulStrict(d, x / d, q);
    MulStrict(d, q, x / d);
  }

  lemma MulPositive(d: nat, m: int)
    ensures m >= 1 ==> d * m >= d
  {
  }

  lemma Distribute(d: int, a: int, m: int)
    ensures d * (a + m) == d * a + d * m
  {
  }

  lemma MulStrict(d: nat, a: int, b: int)
    ensures a < b ==> d * a + d <= d * b
  {
    Distribute(d, a, b - a);
    MulPositive(d, b - a);
  }

  /** The loop of the literal branch: false is an index out of range. */
  method CopyLiteral(out: array<byte>, o: nat, input: bytes, i: nat, n: nat) returns (ok: bool)
    requires o <= out.Length && i <= |input|
    modifies out
    ensures ok <==> o + n <= out.Length && i + n <= |input|
    ensures ok ==> out[..o + n] == old(out[..o]) + input[i..i + n]
  {
    for x := 0 to n
      invariant o + x <= out.Length && i + x <= |input|
      invariant out[..o + x] == old(out[..o]) + input[i..i + x]
    {
      if i + x == |input| || o + x == out.Length { return false; }
      out[o + x] := input[i + x];
    }
    return true;
  }

  /** The loop of the back-reference branch; source and target may overlap. */
  method CopyBack(out: array<byte>, o: nat, distance: nat, n: nat) returns (ok: bool)
    requires 1 <= distance <= o <= out.Length
    modifies out
    ensures ok <==> o + n <= out.Length
    ensures ok ==> out[..o + n] == old(out[..o]) + Repeat(old(out[..o]), distance, n)
  {
    hide Repeat;
    ghost var was := out[..o];
    assert was + Repeat(was, distance, 0) == was;
    var ref := o - distance;
    for x := 0 to n
      invariant o + x <= out.Length && ref == o + x - distance
      invariant out[..o + x] == was + Repeat(was, distance, x)
    {
      if o + x == out.Length { return false; }
      RepeatStep(was, distance, x);
      ghost var now := out[..o + x];
      assert out[ref] == now[ref];
      out[o + x] := out[ref];
      assert out[..o + x + 1] == now + [now[ref]];
      ref := ref + 1;
    }
    return true;
  }

  /** A control byte below 32 at input[from], and the bytes it announces. */
  method TakeLiteral(out: array<byte>, o: nat, input: bytes, from: nat) returns (r: Option<(nat, nat)>)
    requires o <= out.Length && from < |input| && input[from] < 32
    modifies out
    ensures Advanced(input, from, old(out[..o]), r, out)
  {
    hide Unpack;
    ghost var was := out[..o];
    LiteralStep(input, from, was, out.Length);
    var n: nat := input[from];
    var ok := CopyLiteral(out, o, input, from + 1, n + 1);
    return if ok then Some((from + n + 2, o + n + 1)) else None;
  }

  /** A control byte from 32 on at input[from], and the back-reference it starts. */
  method TakeBack(out: array<byte>, o: nat, input: bytes, from: nat) returns (r: Option<(nat, nat)>)
    requires o <= out.Length && from < |input| && input[from] >= 32
    modifies out
    ensures Advanced(input, from, old(out[..o]), r, out)
  {
    hide Unpack, Repeat, DistanceOf;
    BackStep(input, from, out[..o], out.Length);
    var ctrl: nat, i: nat := input[from], from + 1;
    var length := ctrl / 32;
    if length == 7 {
      if i == |input| { return None; }
      length := length + input[i];
      i := i + 1;
    }
    if i == |input| { return None; }
    var distance := DistanceOf(ctrl, input[i]);
    i := i + 1;
    if o < distance { return None; }
    var ok := CopyBack(out, o, distance, length + 2);
    return if ok then Some((i, o + length + 2)) else None;
  }

  /** The indices moved on, and what is left to decode did not change; or decoding panics. */
  ghost predicate Advanced(input: bytes, from: nat, was: bytes, r: Option<(nat, nat)>, out: array<byte>)
    requires from <= |input|
    reads out
  {
    match r
    case None => Unpack(input[from..], was, out.Length) == None
    case Some((i, o)) =>
      && from < i <= |input| && o <= out.Length
      && Unpack(input[from..], was, out.Length) == Unpack(input[i..], out[..o], out.Length)
  }

  /** lzfDecompress: two moving indices over an output array whose cells start out arbitrary. */
  method LzfDecompress(input: bytes, outLen: int) returns (r: Option<bytes>)
    ensures r == if outLen < 0 then None else Unpack(input, [], outLen)
  {
    if outLen < 0 { return None; }
    hide Unpack;
    var out := new byte[outLen];
    var i, o := 0, 0;
    assert input[0..] == input && out[..0] == [];
    while i < |input|
      invariant 0 <= i <= |input| && 0 <= o <= outLen == out.Length
      invariant Unpack(input, [], outLen) == Unpack(input[i..], out[..o], outLen)
      decreases |input| - i
    {
      var next;
      if input[i] < 32 {
        next := TakeLiteral(out, o, input, i);
      } else {
        next := TakeBack(out, o, input, i);
      }
      if next.None? { return None; }
      i, o := next.value.0, next.value.1;
    }
    UnpackDone(out[..o], outLen);
    assert input[i..] == [];
    if o != outLen { return None; }
    assert out[..o] == out[..];
    return Some(out[..]);
  }

  lemma UnpackDone(out: bytes, outLen: nat)
    ensures Unpack([], out, outLen) == if |out| == outLen then Some(out) else None
  {
  }

  lemma LiteralStep(input: bytes, from: nat, out: bytes, outLen: nat)
    requires from < |input| && input[from] < 32
    ensures var n: nat := input[from] + 1;
            if from + 1 + n <= |input| && |out| + n <= outLen
            then Unpack(input[from..], out, outLen) ==
                 Unpack(input[from + 1 + n..], out + input[from + 1..from + 1 + n], outLen)
            else Unpack(input[from..], out, outLen) == None
  {
    var n: nat := input[from] + 1;
    var rest := input[from + 1..];
    assert input[from..][1..] == rest;
    if from + 1 + n <= |input| {
      assert rest[n..] == input[from + 1 + n..] && rest[..n] == input[from + 1..from + 1 + n];
    }
  }

  lemma BackStep(input: bytes, from: nat, out: bytes, outLen: nat)
    requires from < |input| && input[from] >= 32
    ensures var ctrl: nat := input[from];
            var i := if ctrl / 32 == 7 then from + 3 else from + 2;
            if i > |input| then Unpack(input[from..], out, outLen) == None
            else
              var length: nat := if ctrl / 32 == 7 then 7 + input[from + 1] else ctrl / 32;
              var distance := DistanceOf(ctrl, input[i - 1]);
              if distance <= |out| && |out| + length + 2 <= outLen
              then Unpack(input[from..], out, outLen) ==
                   Unpack(input[i..], out + Repeat(out, distance, length + 2), outLen)
              else Unpack(input[from..], out, outLen) == None
  {
    hide Repeat;
    var i := if input[from] / 32 == 7 then from + 3 else from + 2;
    if i <= |input| { assert input[from..][i - from..] == input[i..]; }
  }

  // ---- Round trip ----------------------------------------------------------------------------

  lemma NextOfCopy(distance: nat, length: nat, rest: bytes)
    requires 1 <= distance <= 8192 && 3 <= length <= 264
    ensures NextStep(Encode(Copy(distance, length)) + rest) == Some((Back(distance, length), rest))
  {
    var high, low := (distance - 1) / 256, (distance - 1) % 256;
    assert high * 256 + low + 1 == distance;
    var input := Encode(Copy(distance, length)) + rest;
    if length < 9 {
      assert ((length - 2) * 32 + high) / 32 == length - 2 && ((length - 2) * 32 + high) % 32 == high;
      assert input[2..] == rest;
    } else {
      assert (7 * 32 + high) / 32 == 7 && (7 * 32 + high) % 32 == high;
      assert input[3..] == rest;
    }
  }

  lemma NextOfLiteral(text: bytes, rest: bytes)
    requires 1 <= |text| <= 32
    ensures NextStep(Encode(Literal(text)) + rest) == Some((Plain(|text|), text + rest))
    ensures (text + rest)[..|text|] == text && (text + rest)[|text|..] == rest
  {
    assert (Encode(Literal(text)) + rest)[1..] == text + rest;
  }

  /** One token is one step of the decoder, unless the output is full. */
  lemma DecodeToken(t: Token, out: bytes, rest: bytes, outLen: nat)
    requires ValidToken(t, |out|)
    ensures Unpack(Encode(t) + rest, out, outLen) ==
            if |out| + |TokenText(t, out)| <= outLen then Unpack(rest, out + TokenText(t, out), outLen) else None
  {
    hide Encode, NextStep, Repeat;
    match t
    case Literal(text) => NextOfLiteral(text, rest);
    case Copy(distance, length) => NextOfCopy(distance, length, rest);
  }

  lemma {:induction false} TextGrows(tokens: seq<Token>, out: bytes)
    requires ValidTokens(tokens, out)
    ensures |out| <= |Text(tokens, out)|
  {
    if tokens != [] { TextGrows(tokens[1..], out + TokenText(tokens[0], out)); }
  }

  /** Decompressing what a token sequence encodes gives its text exactly when the announced length
      is the length of that text, and panics otherwise. */
  lemma {:induction false} LzfRoundTrip(tokens: seq<Token>, out: bytes, outLen: nat)
    requires ValidTokens(tokens, out)
    ensures Unpack(EncodeAll(tokens, out), out, outLen) ==
            if |Text(tokens, out)| == outLen then Some(Text(tokens, out)) else None
    decreases tokens
  {
    hide Encode, TokenText;
    if tokens != [] {
      var next := out + TokenText(tokens[0], out);
      var rest := EncodeAll(tokens[1..], next);
      TextGrows(tokens[1..], next);
      DecodeToken(tokens[0], out, rest, outLen);
      LzfRoundTrip(tokens[1..], next, outLen);
    }
  }

  /** A back-reference to before the first byte of the output panics. */
  lemma ReachesTooFar(distance: nat, length: nat, out: bytes, rest: bytes, outLen: nat)
    requires 1 <= distance <= 8192 && 3 <= length <= 264 && distance > |out|
    ensures Unpack(Encode(Copy(distance, length)) + rest, out, outLen) == None
  {
    hide Encode, NextStep, Repeat;
    NextOfCopy(distance, length, rest);
  }
}
