/** client/proto/reader.go: reading and discarding RESP replies. */
module RespReader {
  import opened Bytes
  import opened Decimal
  import RespWriter

  const STATUS: byte := 43     // +
  const ERROR: byte := 45      // -
  const STRING: byte := 36     // $
  const INT: byte := 58        // :
  const NIL: byte := 95        // _
  const FLOAT: byte := 44      // ,
  const BOOL: byte := 35       // #
  const BLOB_ERROR: byte := 33 // !
  const VERBATIM: byte := 61   // =
  const BIG_INT: byte := 40    // (
  const ARRAY: byte := 42      // *
  const MAP: byte := 37        // %
  const SET: byte := 126       // ~
  const ATTR: byte := 124      // |
  const PUSH: byte := 62       // >

  /** What ReadReply returns as a value; a map is its keys and values in turn. */
  datatype Value =
    | Text(text: bytes)
    | Number(n: int)
    | Real(digits: bytes)
    | Flag(b: bool)
    | Big(big: int)
    | List(elements: seq<Element>)
    | Table(cells: seq<Element>)

  /** What it stores for one element: values, nil, and error replies. */
  datatype Element = Value(v: Value) | NoValue | Failed(message: bytes)

  /** A reading: an element and the rest, or an error after which the stream is lost. */
  type Read = Option<(Element, bytes)>

  // ---- Lines ---------------------------------------------------------------------------------

  /** readLine: up to the first newline, which must follow a carriage return and something else. */
  function RawLine(s: bytes): (r: Option<(bytes, bytes)>)
    ensures r.Some? ==> r.value.0 != [] && |r.value.1| < |s|
  {
    var k := Find(LF, s);
    if k == |s| || k < 2 || s[k - 1] != CR then None else Some((s[..k - 1], s[k + 1..]))
  }

  /** replyLen: None is an error, Some(-1) the nil error. */
  function ReplyLen(line: bytes): (r: Option<int>)
    requires line != []
    ensures r.Some? ==> r.value >= -1
  {
    var n :- ParseInt(line[1..]);
    if n < -1 then None else Some(n)
  }

  predicate IsNilReply(line: bytes) { line == [STRING, 45, 49] || line == [ARRAY, 45, 49] }

  /** io.ReadFull of n + 2 bytes, of which the last two are dropped unseen. */
  function TakeBulk(s: bytes, n: nat): (r: Option<(bytes, bytes)>)
    ensures r.Some? ==> |r.value.1| < |s|
  {
    if |s| < n + 2 then None else Some((s[..n], s[n + 2..]))
  }

  predicate IsAggregate(c: byte) { c == ARRAY || c == SET || c == PUSH }

  predicate IsBulk(c: byte) { c == STRING || c == VERBATIM || c == BLOB_ERROR }

  predicate IsOneLine(c: byte) {
    c == STATUS || c == ERROR || c == INT || c == NIL || c == FLOAT || c == BOOL || c == BIG_INT
  }

  // ---- Discard -------------------------------------------------------------------------------

  /** DiscardNext. */
  function DiscardNext(s: bytes): (r: Option<bytes>)
    ensures r.Some? ==> |r.value| < |s|
    decreases |s|, 0
  {
    var (line, rest) :- RawLine(s);
    Discard(line, rest)
  }

  /** Discard: a nil length counts as 0. */
  function Discard(line: bytes, s: bytes): (r: Option<bytes>)
    requires line != []
    ensures r.Some? ==> |r.value| <= |s|
    decreases |s|, 2
  {
    if IsOneLine(line[0]) then Some(s)
    else
      var length :- ReplyLen(line);
      var n: nat := if length == -1 then 0 else length;
      if IsBulk(line[0]) then (if |s| < n + 2 then None else Some(s[n + 2..]))
      else if IsAggregate(line[0]) then DiscardMany(s, n)
      else if line[0] == MAP || line[0] == ATTR then DiscardMany(s, 2 * n)
      else None
  }

  function DiscardMany(s: bytes, n: nat): (r: Option<bytes>)
    ensures r.Some? ==> |r.value| <= |s|
    decreases |s|, 1, n
  {
    if n == 0 then Some(s)
    else
      var rest :- DiscardNext(s);
      DiscardMany(rest, n - 1)
  }

  // ---- Reading -------------------------------------------------------------------------------

  datatype Line = Line(line: bytes) | LineNil | LineError(message: bytes)

  /** readStringReply: the bytes of a bulk reply; a nil length is the nil error. */
  function StringReply(line: bytes, s: bytes): (r: Option<(Option<bytes>, bytes)>)
    requires line != []
    ensures r.Some? ==> |r.value.1| <= |s|
  {
    var n :- ReplyLen(line);
    if n == -1 then Some((None, s))
    else
      var (text, rest) :- TakeBulk(s, n);
      Some((Some(text), rest))
  }

  /** ReadLine: errors and nil are told apart, attributes are skipped. */
  function ReadLine(s: bytes): (r: Option<(Line, bytes)>)
    ensures r.Some? ==> |r.value.1| < |s|
    ensures r.Some? && r.value.0.Line? ==> r.value.0.line != []
    decreases |s|
  {
    var (line, rest) :- RawLine(s);
    if line[0] == ERROR then Some((LineError(line[1..]), rest))
    else if line[0] == NIL then Some((LineNil, rest))
    else if line[0] == BLOB_ERROR then
      var (text, rest) :- StringReply(line, rest);
      Some((if text.None? then LineNil else LineError(text.value), rest))
    else if line[0] == ATTR then
      var rest :- Discard(line, rest);
      ReadLine(rest)
    else if IsNilReply(line) then Some((LineNil, rest))
    else Some((Line(line), rest))
  }

  /** The reply types that are one line. */
  function OneLine(line: bytes): Option<Value>
    requires line != []
  {
    var text := line[1..];
    if line[0] == STATUS then Some(Text(text))
    else if line[0] == INT then (var n :- ParseInt(text); Some(Number(n)))
    else if line[0] == FLOAT then Some(Real(text))
    else if line[0] == BOOL then (if text == [116] then Some(Flag(true)) else if text == [102] then Some(Flag(false)) else None)
    else if line[0] == BIG_INT then (var n :- SignedValue(text); Some(Big(n)))
    else None
  }

  predicate Hashable(v: Value) { !v.List? && !v.Table? }

  /** ReadReply. */
  function ReadReply(s: bytes): (r: Read)
    ensures r.Some? ==> |r.value.1| < |s|
    decreases |s|, 0
  {
    var (line, rest) :- ReadLine(s);
    match line
    case LineNil => Some((NoValue, rest))
    case LineError(message) => Some((Failed(message), rest))
    case Line(line) =>
      if line[0] == STRING || line[0] == VERBATIM then
        var (text, rest) :- StringReply(line, rest);
        if text.None? then Some((NoValue, rest))
        else if line[0] == STRING then Some((Value(Text(text.value)), rest))
        else if |text.value| < 4 || text.value[3] != INT then None
        else Some((Value(Text(text.value[4..])), rest))
      else if IsAggregate(line[0]) then
        var n :- ReplyLen(line);
        if n == -1 then Some((NoValue, rest))
        else
          var (elements, rest) :- ReadSlice(rest, n);
          Some((Value(List(elements)), rest))
      else if line[0] == MAP then
        var n :- ReplyLen(line);
        if n == -1 then Some((NoValue, rest)) else ReadMap(rest, n, [])
      else
        var v :- OneLine(line);
        Some((Value(v), rest))
  }

  /** readSlice: nil and error elements are kept as such. */
  function ReadSlice(s: bytes, n: nat): (r: Option<(seq<Element>, bytes)>)
    ensures r.Some? ==> |r.value.1| <= |s|
    decreases |s|, 1, n
  {
    if n == 0 then Some(([], s))
    else
      var (first, rest) :- ReadReply(s);
      var (more, rest) :- ReadSlice(rest, n - 1);
      Some(([first] + more, rest))
  }

  /** readMap: a nil or error key ends the map as that error; a key that cannot be hashed panics. */
  function ReadMap(s: bytes, n: nat, cells: seq<Element>): (r: Read)
    ensures r.Some? ==> |r.value.1| <= |s|
    decreases |s|, 1, n
  {
    if n == 0 then Some((Value(Table(cells)), s))
    else
      var (key, rest) :- ReadReply(s);
      if !key.Value? then Some((key, rest))
      else
        var (value, rest) :- ReadReply(rest);
        if !Hashable(key.v) then None else ReadMap(rest, n - 1, cells + [key, value])
  }

  // ---- The reader in its own form ------------------------------------------------------------

  ghost predicate Skipped(spec: Option<bytes>, ok: bool, now: bytes) {
    match spec
    case None => !ok
    case Some(rest) => ok && now == rest
  }

  method TakeRawLine(rd: Reader) returns (r: Option<bytes>)
    modifies rd
    ensures Did(RawLine(old(rd.rest)), r, rd.rest)
  {
    var s := rd.rest;
    var k := Find(LF, s);
    if k == |s| { return None; }
    var b := s[..k + 1];
    rd.rest := s[k + 1..];
    if |b| <= 2 || b[|b| - 2] != CR { return None; }
    assert b[..|b| - 2] == s[..k - 1];
    return Some(b[..|b| - 2]);
  }

  method TakeStringReply(rd: Reader, line: bytes) returns (r: Option<Option<bytes>>)
    requires line != []
    modifies rd
    ensures Did(StringReply(line, old(rd.rest)), r, rd.rest)
  {
    var length := ReplyLen(line);
    if length.None? { return None; }
    var n := length.value;
    if n == -1 { return Some(None); }
    if |rd.rest| < n + 2 { return None; }
    var text := rd.rest[..n];
    rd.rest := rd.rest[n + 2..];
    return Some(Some(text));
  }

  method SkipNext(rd: Reader) returns (ok: bool)
    modifies rd
    ensures Skipped(DiscardNext(old(rd.rest)), ok, rd.rest)
    decreases |rd.rest|, 0
  {
    hide RawLine;
    var line := TakeRawLine(rd);
    if line.None? { return false; }
    ok := SkipRest(rd, line.value);
  }

  /** Discard, with its two loops. */
  method SkipRest(rd: Reader, line: bytes) returns (ok: bool)
    requires line != []
    modifies rd
    ensures Skipped(Discard(line, old(rd.rest)), ok, rd.rest)
    decreases |rd.rest|, 2
  {
    hide ReplyLen, DiscardNext, IsOneLine, IsBulk, IsAggregate;
    if IsOneLine(line[0]) { return true; }
    var length := ReplyLen(line);
    if length.None? { return false; }
    var n := if length.value == -1 then 0 else length.value;
    if IsBulk(line[0]) {
      if |rd.rest| < n + 2 { return false; }
      rd.rest := rd.rest[n + 2..];
      return true;
    } else if IsAggregate(line[0]) {
      ok := SkipMany(rd, n);
    } else if line[0] == MAP || line[0] == ATTR {
      ok := SkipMany(rd, n * 2);
    } else {
      return false;
    }
  }

  method SkipMany(rd: Reader, n: nat) returns (ok: bool)
    modifies rd
    ensures Skipped(DiscardMany(old(rd.rest), n), ok, rd.rest)
    decreases |rd.rest|, 1
  {
    hide DiscardNext;
    for i := 0 to n
      invariant |rd.rest| <= |old(rd.rest)|
      invariant DiscardMany(rd.rest, n - i) == DiscardMany(old(rd.rest), n)
    {
      ok := SkipNext(rd);
      if !ok { return; }
    }
    return true;
  }

  method TakeLine(rd: Reader) returns (r: Option<Line>)
    modifies rd
    ensures Did(ReadLine(old(rd.rest)), r, rd.rest)
    decreases |rd.rest|
  {
    hide RawLine, StringReply, Discard, IsNilReply;
    var line := TakeRawLine(rd);
    if line.None? { return None; }
    var b := line.value;
    if b[0] == ERROR {
      return Some(LineError(b[1..]));
    } else if b[0] == NIL {
      return Some(LineNil);
    } else if b[0] == BLOB_ERROR {
      var text := TakeStringReply(rd, b);
      if text.None? { return None; }
      return Some(if text.value.None? then LineNil else LineError(text.value.value));
    } else if b[0] == ATTR {
      var ok := SkipRest(rd, b);
      if !ok { return None; }
      r := TakeLine(rd);
    } else if IsNilReply(b) {
      return Some(LineNil);
    } else {
      return Some(Line(b));
    }
  }

  method TakeReply(rd: Reader) returns (r: Option<Element>)
    modifies rd
    ensures Did(ReadReply(old(rd.rest)), r, rd.rest)
    decreases |rd.rest|, 0
  {
    hide ReadLine, StringReply, ReplyLen, OneLine, IsAggregate, ReadSlice, ReadMap;
    var got := TakeLine(rd);
    if got.None? { return None; }
    if got.value.LineNil? { return Some(NoValue); }
    if got.value.LineError? { return Some(Failed(got.value.message)); }
    var line := got.value.line;
    if line[0] == STRING || line[0] == VERBATIM {
      var text := TakeStringReply(rd, line);
      if text.None? { return None; }
      if text.value.None? { return Some(NoValue); }
      var t := text.value.value;
      if line[0] == STRING { return Some(Value(Text(t))); }
      if |t| < 4 || t[3] != INT { return None; }
      return Some(Value(Text(t[4..])));
    } else if IsAggregate(line[0]) {
      var n := ReplyLen(line);
      if n.None? { return None; }
      if n.value == -1 { return Some(NoValue); }
      var elements := TakeSlice(rd, n.value);
      if elements.None? { return None; }
      return Some(Value(List(elements.value)));
    } else if line[0] == MAP {
      var n := ReplyLen(line);
      if n.None? { return None; }
      if n.value == -1 { return Some(NoValue); }
      r := TakeMap(rd, n.value);
    } else {
      var v := OneLine(line);
      if v.None? { return None; }
      return Some(Value(v.value));
    }
  }

  method TakeSlice(rd: Reader, n: nat) returns (r: Option<seq<Element>>)
    modifies rd
    ensures Did(ReadSlice(old(rd.rest), n), r, rd.rest)
    decreases |rd.rest|, 1
  {
    hide ReadReply;
    var val: seq<Element> := [];
    Onwards([], rd.rest, n);
    for i := 0 to n
      invariant |rd.rest| <= |old(rd.rest)|
      invariant Onward(val, ReadSlice(rd.rest, n - i)) == ReadSlice(old(rd.rest), n)
    {
      SliceStep(val, rd.rest, n - i);
      var v := TakeReply(rd);
      if v.None? { return None; }
      val := val + [v.value];
    }
    Onwards(val, rd.rest, 0);
    return Some(val);
  }

  function Onward(val: seq<Element>, d: Option<(seq<Element>, bytes)>): Option<(seq<Element>, bytes)> {
    match d
    case None => None
    case Some((more, rest)) => Some((val + more, rest))
  }

  lemma Onwards(val: seq<Element>, s: bytes, n: nat)
    ensures Onward([], ReadSlice(s, n)) == ReadSlice(s, n)
    ensures Onward(val, ReadSlice(s, 0)) == Some((val, s))
  {
    hide ReadReply;
    var d := ReadSlice(s, n);
    if d.Some? { assert [] + d.value.0 == d.value.0; }
    assert val + [] == val;
  }

  lemma SliceStep(val: seq<Element>, s: bytes, n: nat)
    requires n > 0
    ensures match ReadReply(s)
            case None => ReadSlice(s, n) == None
            case Some(d) => Onward(val, ReadSlice(s, n)) == Onward(val + [d.0], ReadSlice(d.1, n - 1))
  {
    hide ReadReply;
    var first := ReadReply(s);
    if first.Some? {
      var d := ReadSlice(first.value.1, n - 1);
      if d.Some? { assert val + [first.value.0] + d.value.0 == val + ([first.value.0] + d.value.0); }
    }
  }

  method TakeMap(rd: Reader, n: nat) returns (r: Option<Element>)
    modifies rd
    ensures Did(ReadMap(old(rd.rest), n, []), r, rd.rest)
    decreases |rd.rest|, 1
  {
    hide ReadReply;
    var m: seq<Element> := [];
    for i := 0 to n
      invariant |rd.rest| <= |old(rd.rest)|
      invariant ReadMap(rd.rest, n - i, m) == ReadMap(old(rd.rest), n, [])
    {
      var k := TakeReply(rd);
      if k.None? { return None; }
      if !k.value.Value? { return k; }
      var v := TakeReply(rd);
      if v.None? || !Hashable(k.value.v) { return None; }
      m := m + [k.value, v.value];
    }
    return Some(Value(Table(m)));
  }
}
