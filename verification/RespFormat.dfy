/** The RESP protocol as a grammar, and what reading and discarding make of every reply. */
module RespFormat {
  import opened Bytes
  import opened Decimal
  import RespWriter
  import opened RespReader

  datatype Wire =
    | Status(text: bytes)
    | Error(text: bytes)
    | Int(n: int)
    | NilLine
    | Float(text: bytes)
    | Bool(b: bool)
    | BigInt(n: int)
    | Bulk(text: bytes)
    | NilBulk
    | BlobError(text: bytes)
    | Verbatim(format: bytes, text: bytes)
    | Array(kind: byte, parts: seq<Wire>)
    | NilArray
    | Map(parts: seq<Wire>)
    | Attr(parts: seq<Wire>, reply: Wire)

  // ---- Well-formed, readable and discardable replies -----------------------------------------

  /** What the protocol allows to be written. */
  predicate WellFormed(w: Wire) {
    match w
    case Status(text) => LF !in text
    case Error(text) => LF !in text
    case Int(n) => MIN_INT64 <= n <= MAX_INT64
    case Float(text) => LF !in text
    case Bulk(text) => |text| <= MAX_INT64
    case BlobError(text) => |text| <= MAX_INT64
    case Verbatim(format, text) => |format| == 3 && 4 + |text| <= MAX_INT64
    case Array(kind, parts) => kind in {42, 126, 62} && |parts| <= MAX_INT64 && AllWellFormed(parts)
    case Map(parts) => |parts| % 2 == 0 && |parts| <= MAX_INT64 && AllWellFormed(parts)
    case Attr(parts, reply) => |parts| % 2 == 0 && |parts| <= MAX_INT64 && AllWellFormed(parts) && WellFormed(reply)
    case _ => true
  }

  predicate AllWellFormed(ws: seq<Wire>) {
    ws == [] || (WellFormed(ws[0]) && AllWellFormed(ws[1..]))
  }

  /** No bulk nil and no attribute anywhere. */
  predicate Discardable(w: Wire) {
    match w
    case NilBulk => false
    case Attr(_, _) => false
    case Array(_, parts) => AllDiscardable(parts)
    case Map(parts) => AllDiscardable(parts)
    case _ => true
  }

  predicate AllDiscardable(ws: seq<Wire>) {
    ws == [] || (Discardable(ws[0]) && AllDiscardable(ws[1..]))
  }

  predicate ScalarKey(w: Wire) {
    w.Status? || w.Int? || w.Float? || w.Bool? || w.BigInt? || w.Bulk? || w.Verbatim?
  }

  /** Map keys are scalars, and attributes can be discarded. */
  predicate Readable(w: Wire) {
    match w
    case Array(_, parts) => AllReadable(parts)
    case Map(parts) => AllReadable(parts) && ScalarKeys(parts)
    case Attr(parts, reply) => AllDiscardable(parts) && Readable(reply)
    case _ => true
  }

  predicate AllReadable(ws: seq<Wire>) {
    ws == [] || (Readable(ws[0]) && AllReadable(ws[1..]))
  }

  predicate ScalarKeys(parts: seq<Wire>) {
    |parts| < 2 || (ScalarKey(parts[0]) && ScalarKeys(parts[2..]))
  }

  // ---- Encoding ------------------------------------------------------------------------------

  function PutLine(c: byte, text: bytes, rest: bytes): bytes { [c] + text + (CRLF + rest) }

  function PutBulk(c: byte, text: bytes, rest: bytes): bytes {
    PutLine(c, Digits(|text|), text + (CRLF + rest))
  }

  /** A reply on the wire, followed by rest: + - : _ , # ( $ ! = * ~ > % and | by their codes. */
  function Put(w: Wire, rest: bytes): bytes
    decreases w
  {
    match w
    case Status(text) => PutLine(43, text, rest)
    case Error(text) => PutLine(45, text, rest)
    case Int(n) => PutLine(58, Itoa(n), rest)
    case NilLine => PutLine(95, [], rest)
    case Float(text) => PutLine(44, text, rest)
    case Bool(b) => PutLine(35, [if b then 116 else 102], rest)
    case BigInt(n) => PutLine(40, Itoa(n), rest)
    case Bulk(text) => PutBulk(36, text, rest)
    case NilBulk => PutLine(36, [45, 49], rest)
    case BlobError(text) => PutBulk(33, text, rest)
    case Verbatim(format, text) => PutBulk(61, format + [58] + text, rest)
    case Array(kind, parts) => PutLine(kind, Digits(|parts|), PutAll(parts, rest))
    case NilArray => PutLine(42, [45, 49], rest)
    case Map(parts) => PutLine(37, Digits(|parts| / 2), PutAll(parts, rest))
    case Attr(parts, reply) => PutLine(124, Digits(|parts| / 2), PutAll(parts, Put(reply, rest)))
  }

  function PutAll(ws: seq<Wire>, rest: bytes): bytes
    decreases ws
  {
    if ws == [] then rest else Put(ws[0], PutAll(ws[1..], rest))
  }

  // ---- Meaning -------------------------------------------------------------------------------

  /** The reply as the client sees it: attributes are gone, errors and nil are elements of their own. */
  function Meaning(w: Wire): Element
    decreases w
  {
    match w
    case Status(text) => Value(Text(text))
    case Error(text) => Failed(text)
    case Int(n) => Value(Number(n))
    case NilLine => NoValue
    case Float(text) => Value(Real(text))
    case Bool(b) => Value(Flag(b))
    case BigInt(n) => Value(Big(n))
    case Bulk(text) => Value(Text(text))
    case NilBulk => NoValue
    case BlobError(text) => Failed(text)
    case Verbatim(_, text) => Value(Text(text))
    case Array(_, parts) => Value(List(Meanings(parts)))
    case NilArray => NoValue
    case Map(parts) => Value(Table(Meanings(parts)))
    case Attr(_, reply) => Meaning(reply)
  }

  function Meanings(ws: seq<Wire>): (r: seq<Element>)
    ensures |r| == |ws|
    decreases ws
  {
    if ws == [] then [] else [Meaning(ws[0])] + Meanings(ws[1..])
  }

  // ---- Lines ---------------------------------------------------------------------------------

  lemma {:induction false} FindAt(c: byte, a: bytes, b: bytes)
    requires c !in a
    ensures Find(c, a + [c] + b) == |a|
  {
    if a != [] {
      assert (a + [c] + b)[1..] == a[1..] + [c] + b;
      FindAt(c, a[1..], b);
    }
  }

  lemma LineBack(c: byte, text: bytes, rest: bytes)
    requires c != LF && LF !in text
    ensures RawLine(PutLine(c, text, rest)) == Some(([c] + text, rest))
  {
    hide Find;
    var s := PutLine(c, text, rest);
    assert s == ([c] + text + [CR]) + [LF] + rest;
    FindAt(LF, [c] + text + [CR], rest);
    assert s[..|text| + 1] == [c] + text && s[|text| + 3..] == rest;
  }

  lemma DigitsLine(c: byte, n: nat, rest: bytes)
    requires c != LF && n <= MAX_INT64
    ensures RawLine(PutLine(c, Digits(n), rest)) == Some(([c] + Digits(n), rest))
    ensures ReplyLen([c] + Digits(n)) == Some(n) && !IsNilReply([c] + Digits(n))
  {
    hide RawLine, ParseInt, Digits;
    LineBack(c, Digits(n), rest);
    ParseItoa(n);
    assert ([c] + Digits(n))[1..] == Digits(n);
    assert ([c] + Digits(n))[1] == Digits(n)[0];
  }

  lemma BulkBack(text: bytes, rest: bytes)
    ensures TakeBulk(text + (CRLF + rest), |text|) == Some((text, rest))
  {
    var s := text + (CRLF + rest);
    assert s[..|text|] == text && s[|text| + 2..] == rest;
  }

  /** The line that PutBulk starts with, and the bulk behind it. */
  lemma PutBulkBack(c: byte, text: bytes, rest: bytes)
    requires c != LF && |text| <= MAX_INT64
    ensures RawLine(PutBulk(c, text, rest)) == Some(([c] + Digits(|text|), text + (CRLF + rest)))
    ensures StringReply([c] + Digits(|text|), text + (CRLF + rest)) == Some((Some(text), rest))
    ensures ReplyLen([c] + Digits(|text|)) == Some(|text|) && !IsNilReply([c] + Digits(|text|))
    ensures |text + (CRLF + rest)| >= |text| + 2 && (text + (CRLF + rest))[|text| + 2..] == rest
  {
    hide RawLine, ReplyLen, Digits;
    DigitsLine(c, |text|, text + (CRLF + rest));
    BulkBack(text, rest);
  }

  // ---- Discarding ----------------------------------------------------------------------------

  lemma DiscardLine(c: byte, text: bytes, rest: bytes)
    requires IsOneLine(c) && LF !in text
    ensures DiscardNext(PutLine(c, text, rest)) == Some(rest)
  {
    hide RawLine;
    LineBack(c, text, rest);
  }

  lemma DiscardBulk(c: byte, text: bytes, rest: bytes)
    requires IsBulk(c) && |text| <= MAX_INT64
    ensures DiscardNext(PutBulk(c, text, rest)) == Some(rest)
  {
    hide RawLine, ReplyLen, Digits, PutBulk;
    PutBulkBack(c, text, rest);
  }

  lemma NilLineBack(c: byte, rest: bytes)
    requires c != LF
    ensures RawLine(PutLine(c, [45, 49], rest)) == Some(([c, 45, 49], rest)) && ReplyLen([c, 45, 49]) == Some(-1)
  {
    hide RawLine, ParseInt;
    LineBack(c, [45, 49], rest);
    assert [c] + [45, 49] == [c, 45, 49] && [c, 45, 49][1..] == [45, 49];
    ParseItoa(-1);
    assert Itoa(-1) == [45, 49];
  }

  /** Discarding skips exactly one reply if there is no bulk nil and no attribute in it. */
  lemma {:induction false} DiscardBack(w: Wire, rest: bytes)
    requires WellFormed(w) && Discardable(w)
    ensures DiscardNext(Put(w, rest)) == Some(rest)
    decreases w
  {
    hide RawLine, ReplyLen, DiscardMany, PutLine, PutBulk, Digits, Itoa;
    match w
    case Status(text) => DiscardLine(STATUS, text, rest);
    case Error(text) => DiscardLine(ERROR, text, rest);
    case Int(n) =>
      ItoaHasNoLineBreak(n);
      DiscardLine(INT, Itoa(n), rest);
    case NilLine => DiscardLine(NIL, [], rest);
    case Float(text) => DiscardLine(FLOAT, text, rest);
    case Bool(b) => DiscardLine(BOOL, [if b then 116 else 102], rest);
    case BigInt(n) =>
      ItoaHasNoLineBreak(n);
      DiscardLine(BIG_INT, Itoa(n), rest);
    case Bulk(text) => DiscardBulk(STRING, text, rest);
    case BlobError(text) => DiscardBulk(BLOB_ERROR, text, rest);
    case Verbatim(format, text) => DiscardBulk(VERBATIM, format + [INT] + text, rest);
    case Array(kind, parts) =>
      DigitsLine(kind, |parts|, PutAll(parts, rest));
      DiscardAll(parts, rest);
    case NilArray => NilLineBack(ARRAY, rest); NothingToSkip(rest);
    case Map(parts) =>
      DigitsLine(MAP, |parts| / 2, PutAll(parts, rest));
      DiscardAll(parts, rest);
  }

  lemma NothingToSkip(rest: bytes)
    ensures DiscardMany(rest, 0) == Some(rest)
  {
  }

  lemma {:induction false} DiscardAll(ws: seq<Wire>, rest: bytes)
    requires AllWellFormed(ws) && AllDiscardable(ws)
    ensures DiscardMany(PutAll(ws, rest), |ws|) == Some(rest)
    decreases ws
  {
    hide DiscardNext, Put, WellFormed, Discardable;
    if ws != [] {
      DiscardBack(ws[0], PutAll(ws[1..], rest));
      DiscardAll(ws[1..], rest);
    }
  }

  /** A bulk nil takes two bytes of what follows with it. */
  lemma DiscardBulkNil(rest: bytes)
    ensures DiscardNext(Put(NilBulk, rest)) == if |rest| < 2 then None else Some(rest[2..])
  {
    hide RawLine, ReplyLen, PutLine;
    NilLineBack(STRING, rest);
  }

  lemma {:induction false} PutAllAppend(a: seq<Wire>, b: seq<Wire>, rest: bytes)
    ensures PutAll(a + b, rest) == PutAll(a, PutAll(b, rest))
    decreases a
  {
    hide Put;
    if a == [] {
      assert a + b == b;
    } else {
      assert (a + b)[1..] == a[1..] + b;
      PutAllAppend(a[1..], b, rest);
    }
  }

  lemma {:induction false} DiscardPrefix(ws: seq<Wire>, tail: bytes, k: nat)
    requires AllWellFormed(ws) && AllDiscardable(ws)
    ensures DiscardMany(PutAll(ws, tail), |ws| + k) == DiscardMany(tail, k)
    decreases ws
  {
    hide DiscardNext, Put, WellFormed, Discardable;
    if ws != [] {
      DiscardBack(ws[0], PutAll(ws[1..], tail));
      DiscardPrefix(ws[1..], tail, k);
    }
  }

  /** Inside an array as well: what is skipped behind its first bulk nil starts two bytes into the next part. */
  lemma DiscardNestedNil(kind: byte, before: seq<Wire>, after: seq<Wire>, rest: bytes)
    requires IsAggregate(kind) && AllWellFormed(before) && AllDiscardable(before) && |before| + 1 + |after| <= MAX_INT64
    ensures var next := PutAll(after, rest);
            DiscardNext(Put(Array(kind, before + [NilBulk] + after), rest))
            == if |next| < 2 then None else DiscardMany(next[2..], |after|)
  {
    hide RawLine, ReplyLen, PutLine, Digits, DiscardNext, PutAll, AllWellFormed, AllDiscardable;
    var parts, tail := before + [NilBulk] + after, Put(NilBulk, PutAll(after, rest));
    PutNil(before, after, rest);
    ArrayParts(kind, parts, rest);
    DiscardPrefix(before, tail, 1 + |after|);
    DiscardBulkNil(PutAll(after, rest));
    DiscardTurn(tail, |after|);
  }

  lemma PutNil(before: seq<Wire>, after: seq<Wire>, rest: bytes)
    ensures PutAll(before + [NilBulk] + after, rest) == PutAll(before, Put(NilBulk, PutAll(after, rest)))
  {
    var nils := [NilBulk];
    assert nils[1..] == [];
    PutAllAppend(before + nils, after, rest);
    PutAllAppend(before, nils, PutAll(after, rest));
  }

  lemma ArrayParts(kind: byte, parts: seq<Wire>, rest: bytes)
    requires IsAggregate(kind) && |parts| <= MAX_INT64
    ensures DiscardNext(Put(Array(kind, parts), rest)) == DiscardMany(PutAll(parts, rest), |parts|)
  {
    hide RawLine, ReplyLen, PutLine, Digits, DiscardMany;
    DigitsLine(kind, |parts|, PutAll(parts, rest));
  }

  lemma DiscardTurn(s: bytes, k: nat)
    ensures DiscardMany(s, 1 + k) == match DiscardNext(s) case None => None case Some(rest) => DiscardMany(rest, k)
  {
  }

  /** An array that ends in a bulk nil is never discarded exactly. */
  lemma DiscardEndsInNil(kind: byte, before: seq<Wire>, rest: bytes)
    requires IsAggregate(kind) && AllWellFormed(before) && AllDiscardable(before) && |before| + 1 <= MAX_INT64
    ensures DiscardNext(Put(Array(kind, before + [NilBulk]), rest)) != Some(rest)
  {
    DiscardNestedNil(kind, before, [], rest);
    assert before + [NilBulk] + [] == before + [NilBulk];
  }

  lemma Headed(w: Wire, ws: seq<Wire>)
    ensures AllWellFormed([w] + ws) <==> WellFormed(w) && AllWellFormed(ws)
    ensures AllDiscardable([w] + ws) <==> Discardable(w) && AllDiscardable(ws)
  {
    hide WellFormed, Discardable;
    assert ([w] + ws)[1..] == ws;
  }

  /** One in which a status line follows that starts with one can be: the second byte of ":+1" is taken for the
      beginning of the line. */
  lemma DiscardByAccident(rest: bytes)
    ensures var w := Array(ARRAY, [NilBulk, Status([INT, STATUS, 49])]);
            WellFormed(w) && !Discardable(w) && DiscardNext(Put(w, rest)) == Some(rest)
  {
    hide RawLine;
    var text: bytes := [INT, STATUS, 49];
    var after: seq<Wire> := [Status(text)];
    var parts: seq<Wire> := [NilBulk, Status(text)];
    assert after == [Status(text)] + [] && after[1..] == [] && parts == [NilBulk] + after == [] + [NilBulk] + after;
    Headed(NilBulk, after);
    Headed(Status(text), []);
    DiscardNestedNil(ARRAY, [], after, rest);
    var next := PutAll(after, rest);
    assert next == PutLine(STATUS, text, rest) && next[2..] == PutLine(STATUS, [49], rest);
    DiscardLine(STATUS, [49], rest);
    NothingToSkip(rest);
    DiscardTurn(next[2..], 0);
  }

  /** An attribute is discarded without the reply it belongs to. */
  lemma DiscardAttr(parts: seq<Wire>, reply: Wire, rest: bytes)
    requires WellFormed(Attr(parts, reply)) && AllDiscardable(parts)
    ensures DiscardNext(Put(Attr(parts, reply), rest)) == Some(Put(reply, rest))
  {
    hide RawLine, ReplyLen, DiscardMany, PutLine, Digits;
    DigitsLine(ATTR, |parts| / 2, PutAll(parts, Put(reply, rest)));
    DiscardAll(parts, Put(reply, rest));
  }

  // ---- Reading -------------------------------------------------------------------------------

  /** Lines that ReadLine hands on as they are. */
  predicate Passes(line: bytes) {
    line != [] && line[0] != ERROR && line[0] != NIL && line[0] != BLOB_ERROR && line[0] != ATTR && !IsNilReply(line)
  }

  lemma PassedLine(s: bytes, line: bytes, rest: bytes)
    requires RawLine(s) == Some((line, rest)) && Passes(line)
    ensures ReadLine(s) == Some((Line(line), rest))
  {
    hide RawLine, IsNilReply;
  }

  lemma ReadOneLine(c: byte, text: bytes, v: RespReader.Value, rest: bytes)
    requires LF !in text && c in {STATUS, INT, FLOAT, BOOL, BIG_INT} && OneLine([c] + text) == Some(v)
    ensures ReadReply(PutLine(c, text, rest)) == Some((Value(v), rest))
  {
    hide RawLine, OneLine, PutLine, ReadLine;
    LineBack(c, text, rest);
    PassedLine(PutLine(c, text, rest), [c] + text, rest);
  }

  lemma OneLineIs(c: byte, text: bytes)
    ensures c == STATUS ==> OneLine([c] + text) == Some(Text(text))
    ensures c == FLOAT ==> OneLine([c] + text) == Some(Real(text))
    ensures c == INT && ParseInt(text).Some? ==> OneLine([c] + text) == Some(Number(ParseInt(text).value))
    ensures c == BIG_INT && SignedValue(text).Some? ==> OneLine([c] + text) == Some(Big(SignedValue(text).value))
    ensures c == BOOL && text == [116] ==> OneLine([c] + text) == Some(Flag(true))
    ensures c == BOOL && text == [102] ==> OneLine([c] + text) == Some(Flag(false))
  {
    hide ParseInt, SignedValue;
    assert ([c] + text)[1..] == text;
  }

  lemma ReadBulk(c: byte, text: bytes, rest: bytes)
    requires (c == STRING || c == VERBATIM) && |text| <= MAX_INT64
    requires c == VERBATIM ==> |text| >= 4 && text[3] == INT
    ensures ReadReply(PutBulk(c, text, rest)) ==
            Some((Value(Text(if c == STRING then text else text[4..])), rest))
  {
    hide RawLine, ReadLine, StringReply, ReplyLen, PutBulk, Digits, IsNilReply;
    PutBulkBack(c, text, rest);
    PassedLine(PutBulk(c, text, rest), [c] + Digits(|text|), text + (CRLF + rest));
  }

  /** Error lines, error blobs and the three ways of writing nil. */
  lemma ReadFailure(w: Wire, rest: bytes)
    requires WellFormed(w) && (w.Error? || w.BlobError? || w.NilLine? || w.NilBulk? || w.NilArray?)
    ensures ReadReply(Put(w, rest)) == Some((Meaning(w), rest))
  {
    hide RawLine, StringReply, PutLine, PutBulk, Digits;
    match w
    case Error(text) =>
      LineBack(ERROR, text, rest);
      assert ([ERROR] + text)[1..] == text;
    case BlobError(text) => PutBulkBack(BLOB_ERROR, text, rest);
    case NilLine => LineBack(NIL, [], rest);
    case NilBulk => NilLineBack(STRING, rest);
    case NilArray => NilLineBack(ARRAY, rest);
  }

  lemma ReadAttr(parts: seq<Wire>, reply: Wire, rest: bytes)
    requires WellFormed(Attr(parts, reply)) && AllDiscardable(parts)
    ensures ReadReply(Put(Attr(parts, reply), rest)) == ReadReply(Put(reply, rest))
  {
    hide RawLine, ReplyLen, DiscardMany, PutLine, Digits, ReadSlice, ReadMap, OneLine, StringReply;
    var s, behind := Put(Attr(parts, reply), rest), Put(reply, rest);
    DigitsLine(ATTR, |parts| / 2, PutAll(parts, behind));
    DiscardAll(parts, behind);
    assert ReadLine(s) == ReadLine(behind);
  }

  /** Reading any reply the protocol allows, with scalar map keys and discardable attributes, yields its
      meaning and stops right behind it. */
  lemma {:induction false} ReadBack(w: Wire, rest: bytes)
    requires WellFormed(w) && Readable(w)
    ensures ReadReply(Put(w, rest)) == Some((Meaning(w), rest))
    decreases w
  {
    hide RawLine, ReadLine, ReplyLen, ReadSlice, ReadMap, ReadReply, PutLine, PutBulk, Digits, Itoa, OneLine, ParseInt,
      SignedValue;
    match w
    case Status(text) => OneLineIs(STATUS, text); ReadOneLine(STATUS, text, Text(text), rest);
    case Int(n) =>
      ItoaHasNoLineBreak(n);
      ParseItoa(n);
      OneLineIs(INT, Itoa(n));
      ReadOneLine(INT, Itoa(n), Number(n), rest);
    case Float(text) => OneLineIs(FLOAT, text); ReadOneLine(FLOAT, text, Real(text), rest);
    case Bool(b) => OneLineIs(BOOL, [if b then 116 else 102]); ReadOneLine(BOOL, [if b then 116 else 102], Flag(b), rest);
    case BigInt(n) =>
      ItoaHasNoLineBreak(n);
      SignedRoundTrip(n);
      OneLineIs(BIG_INT, Itoa(n));
      ReadOneLine(BIG_INT, Itoa(n), Big(n), rest);
    case Bulk(text) => ReadBulk(STRING, text, rest);
    case Verbatim(format, text) =>
      var all := format + [INT] + text;
      assert all[4..] == text;
      ReadBulk(VERBATIM, all, rest);
    case Array(kind, parts) =>
      ReadAll(parts, rest);
      ReadArray(kind, parts, rest);
    case Map(parts) =>
      ReadCells(parts, [], rest);
      ReadTable(parts, rest);
    case Attr(parts, reply) =>
      ReadBack(reply, rest);
      ReadAttr(parts, reply, rest);
    case _ => ReadFailure(w, rest);
  }

  lemma ReadArray(kind: byte, parts: seq<Wire>, rest: bytes)
    requires WellFormed(Array(kind, parts))
    requires ReadSlice(PutAll(parts, rest), |parts|) == Some((Meanings(parts), rest))
    ensures ReadReply(Put(Array(kind, parts), rest)) == Some((Meaning(Array(kind, parts)), rest))
  {
    hide RawLine, ReadLine, ReplyLen, ReadSlice, PutLine, Digits, IsNilReply;
    DigitsLine(kind, |parts|, PutAll(parts, rest));
    PassedLine(Put(Array(kind, parts), rest), [kind] + Digits(|parts|), PutAll(parts, rest));
  }

  lemma ReadTable(parts: seq<Wire>, rest: bytes)
    requires WellFormed(Map(parts))
    requires ReadMap(PutAll(parts, rest), |parts| / 2, []) == Some((Value(Table([] + Meanings(parts))), rest))
    ensures ReadReply(Put(Map(parts), rest)) == Some((Meaning(Map(parts)), rest))
  {
    hide RawLine, ReadLine, ReplyLen, ReadMap, PutLine, Digits, IsNilReply;
    DigitsLine(MAP, |parts| / 2, PutAll(parts, rest));
    PassedLine(Put(Map(parts), rest), [MAP] + Digits(|parts| / 2), PutAll(parts, rest));
    assert [] + Meanings(parts) == Meanings(parts);
  }

  lemma {:induction false} ReadAll(ws: seq<Wire>, rest: bytes)
    requires AllWellFormed(ws) && AllReadable(ws)
    ensures ReadSlice(PutAll(ws, rest), |ws|) == Some((Meanings(ws), rest))
    decreases ws
  {
    hide ReadReply, Put, Meaning, WellFormed, Readable;
    if ws != [] {
      ReadBack(ws[0], PutAll(ws[1..], rest));
      ReadAll(ws[1..], rest);
    }
  }

  lemma ScalarMeaning(w: Wire)
    requires ScalarKey(w)
    ensures Meaning(w).Value? && Hashable(Meaning(w).v)
  {
  }

  lemma {:induction false} ReadCells(ws: seq<Wire>, cells: seq<Element>, rest: bytes)
    requires AllWellFormed(ws) && AllReadable(ws) && ScalarKeys(ws) && |ws| % 2 == 0
    ensures ReadMap(PutAll(ws, rest), |ws| / 2, cells) == Some((Value(Table(cells + Meanings(ws))), rest))
    decreases ws
  {
    hide ReadReply, Put, Meaning, WellFormed, Readable, ScalarKey, Hashable;
    if ws == [] {
      assert cells + [] == cells;
    } else {
      var k, v, more := ws[0], ws[1], ws[2..];
      assert ws[1..][0] == v && ws[1..][1..] == more;
      ReadBack(k, PutAll(ws[1..], rest));
      ReadBack(v, PutAll(more, rest));
      ScalarMeaning(k);
      ReadCells(more, cells + [Meaning(k), Meaning(v)], rest);
      assert Meanings(ws) == [Meaning(k)] + ([Meaning(v)] + Meanings(more));
      assert cells + [Meaning(k), Meaning(v)] + Meanings(more) == cells + Meanings(ws);
    }
  }

  /** On replies that can be both read and discarded, discarding moves exactly as far as reading. */
  lemma DiscardLikeRead(w: Wire, rest: bytes)
    requires WellFormed(w) && Readable(w) && Discardable(w)
    ensures ReadReply(Put(w, rest)).Some? && DiscardNext(Put(w, rest)) == Some(ReadReply(Put(w, rest)).value.1)
  {
    hide ReadReply, DiscardNext, Put;
    ReadBack(w, rest);
    DiscardBack(w, rest);
  }

  // ---- Commands ------------------------------------------------------------------------------

  function Bulks(args: seq<bytes>): (ws: seq<Wire>)
    ensures |ws| == |args|
  {
    if args == [] then [] else [Bulk(args[0])] + Bulks(args[1..])
  }

  function Texts(args: seq<bytes>): seq<Element> {
    if args == [] then [] else [Value(Text(args[0]))] + Texts(args[1..])
  }

  predicate Writable(args: seq<bytes>) {
    |args| <= MAX_INT64 && forall k :: 0 <= k < |args| ==> |args[k]| <= MAX_INT64
  }

  lemma ArgBytes(arg: bytes, rest: bytes)
    ensures RespWriter.EncodeArg(arg) + rest == Put(Bulk(arg), rest)
  {
    hide Digits;
  }

  lemma {:induction false} BulksBytes(args: seq<bytes>, rest: bytes)
    ensures RespWriter.EncodeArgList(args) + rest == PutAll(Bulks(args), rest)
  {
    hide RespWriter.EncodeArg, Put;
    if args == [] {
      assert [] + rest == rest;
    } else {
      var more := RespWriter.EncodeArgList(args[1..]);
      assert RespWriter.EncodeArg(args[0]) + more + rest == RespWriter.EncodeArg(args[0]) + (more + rest);
      ArgBytes(args[0], more + rest);
      BulksBytes(args[1..], rest);
    }
  }

  lemma {:induction false} BulksGood(args: seq<bytes>)
    requires forall k :: 0 <= k < |args| ==> |args[k]| <= MAX_INT64
    ensures AllWellFormed(Bulks(args)) && AllReadable(Bulks(args)) && Meanings(Bulks(args)) == Texts(args)
  {
    if args != [] { BulksGood(args[1..]); }
  }

  /** The reply reader recovers exactly the arguments the command writer wrote, whatever bytes they hold. */
  lemma ReadsWhatWasWritten(args: seq<bytes>, rest: bytes)
    requires Writable(args)
    ensures ReadReply(RespWriter.EncodeArgs(args) + rest) == Some((Value(List(Texts(args))), rest))
  {
    hide ReadReply, RespWriter.EncodeArgList, Digits, Bulks, AllWellFormed, AllReadable, PutAll;
    var list := RespWriter.EncodeArgList(args);
    BulksBytes(args, rest);
    BulksGood(args);
    var w := Array(ARRAY, Bulks(args));
    assert [ARRAY] + (Digits(|args|) + CRLF) + list + rest == [ARRAY] + Digits(|args|) + (CRLF + (list + rest));
    ReadBack(w, rest);
  }

  /** A map whose first key is nil or an error reply is read as that, and all that follows the key is left on
      the stream. */
  lemma NilKey(key: Wire, cells: seq<Wire>, rest: bytes)
    requires WellFormed(Map([key] + cells)) && Readable(key) && !Meaning(key).Value?
    ensures ReadReply(Put(Map([key] + cells), rest)) == Some((Meaning(key), PutAll(cells, rest)))
  {
    hide RawLine, ReadLine, ReplyLen, PutLine, Digits, IsNilReply, ReadReply, Put, Meaning, Readable;
    var parts := [key] + cells;
    assert parts[0] == key && parts[1..] == cells;
    ReadBack(key, PutAll(cells, rest));
    MapLine(parts, rest);
  }

  /** What a map is read as, behind its first line. */
  lemma MapLine(parts: seq<Wire>, rest: bytes)
    requires |parts| % 2 == 0 && |parts| <= MAX_INT64
    ensures ReadReply(Put(Map(parts), rest)) == ReadMap(PutAll(parts, rest), |parts| / 2, [])
  {
    hide RawLine, ReadLine, ReplyLen, ReadMap, PutLine, Digits, IsNilReply;
    DigitsLine(MAP, |parts| / 2, PutAll(parts, rest));
    PassedLine(Put(Map(parts), rest), [MAP] + Digits(|parts| / 2), PutAll(parts, rest));
  }

  // ---- What is refused -----------------------------------------------------------------------

  /** A line must end in a carriage return and a newline, with something in front of them. */
  lemma BadLine(text: bytes, rest: bytes)
    requires 10 !in text && (text == [] || text == [13] || text[|text| - 1] != 13)
    ensures ReadReply(text + [10] + rest) == None && DiscardNext(text + [10] + rest) == None
    ensures ReadReply(text) == None && DiscardNext(text) == None
  {
    hide Find;
    var s := text + [10] + rest;
    FindAt(10, text, rest);
    assert s[|text|] == 10 && forall k :: 0 <= k < |text| ==> s[k] == text[k];
    NotFound(10, text);
  }

  lemma {:induction false} NotFound(c: byte, s: bytes)
    requires c !in s
    ensures Find(c, s) == |s|
  {
    if s != [] { NotFound(c, s[1..]); }
  }

  /** No other first byte starts a reply. */
  lemma UnknownType(c: byte, text: bytes, rest: bytes)
    requires c !in {10, 43, 45, 58, 95, 44, 35, 36, 33, 61, 40, 42, 37, 126, 124, 62} && 10 !in text
    ensures ReadReply(PutLine(c, text, rest)) == None
    ensures DiscardNext(PutLine(c, text, rest)) == None
  {
    hide RawLine, ParseInt;
    LineBack(c, text, rest);
    assert ([c] + text)[0] == c;
    PassedLine(PutLine(c, text, rest), [c] + text, rest);
  }

  /** An integer must be one of 64 bits, and a boolean t or f. */
  lemma BadScalar(text: bytes, rest: bytes)
    requires 10 !in text
    ensures ParseInt(text).None? ==> ReadReply(PutLine(58, text, rest)) == None
    ensures text != [116] && text != [102] ==> ReadReply(PutLine(35, text, rest)) == None
  {
    hide RawLine, ParseInt;
    LineBack(58, text, rest);
    PassedLine(PutLine(58, text, rest), [58] + text, rest);
    LineBack(35, text, rest);
    PassedLine(PutLine(35, text, rest), [35] + text, rest);
    assert ([58] + text)[1..] == text && ([35] + text)[1..] == text;
  }

  /** A verbatim string must have a colon behind three bytes of format. */
  lemma BadVerbatim(text: bytes, rest: bytes)
    requires |text| <= MAX_INT64 && (|text| < 4 || text[3] != 58)
    ensures ReadReply(PutBulk(61, text, rest)) == None
  {
    hide RawLine, ReplyLen, Digits, StringReply;
    PutBulkBack(61, text, rest);
    PassedLine(PutBulk(61, text, rest), [61] + Digits(|text|), text + (CRLF + rest));
  }
}
