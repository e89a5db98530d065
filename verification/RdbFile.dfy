/** RDB files as sequences of opcodes, and what the loop of RdbLoop makes of every one of them. */
module RdbFile {
  import opened Bytes
  import opened Decimal
  import opened CommandStream
  import opened RdbPrimitives
  import opened RdbString
  import opened RdbLoop

  /** A piece of a module's auxiliary data. */
  datatype Part = Number(signed: bool, n: Num) | Float(text: bytes) | FloatMarker(marker: byte)
    | Double(bits: bytes) | Text(s: StringForm)

  datatype Item =
    | SlotInfo(a: Num, b: Num, c: Num)
    | Function2(lib: StringForm)
    | ModuleAux(id: Num, whenOpcode: Num, when: Num, parts: seq<Part>)
    | Idle(n: Num)
    | Freq(freq: byte)
    | Aux(name: StringForm, setting: StringForm)
    | ResizeDb(a: Num, b: Num)
    | ExpireMs(at: nat)
    | ExpireSeconds(at: nat)
    | SelectDb(db: Num)
    | Key(typeByte: byte, key: StringForm, value: bytes, argvs: seq<Argv>)

  predicate ValidPart(p: Part) {
    match p
    case Number(_, n) => ValidNum(n)
    case Float(text) => |text| < 253
    case FloatMarker(b) => b >= 253
    case Double(b) => |b| == 8
    case Text(s) => ValidString(s)
  }

  /** The value decoder reads exactly these bytes, whatever follows, and yields these commands. */
  ghost predicate Decodes(i: Item, cfg: Config, decode: ValueDecoder)
    requires i.Key? && ValidString(i.key)
  {
    forall rest: bytes {:trigger i.value + rest} ::
      decode(i.value + rest, i.typeByte, StringText(i.key), cfg.isValkey) == Some((i.argvs, rest))
  }

  ghost predicate ValidItem(i: Item, cfg: Config, decode: ValueDecoder) {
    match i
    case SlotInfo(a, b, c) => ValidNum(a) && ValidNum(b) && ValidNum(c)
    case Function2(lib) => ValidString(lib)
    case ModuleAux(id, whenOpcode, when, parts) =>
      ValidNum(id) && ValidNum(whenOpcode) && ValidNum(when) && forall k :: 0 <= k < |parts| ==> ValidPart(parts[k])
    case Idle(n) => ValidNum(n)
    case Freq(_) => true
    case Aux(name, value) =>
      && ValidString(name) && ValidString(value)
      && (StringText(name) == Ascii("repl-stream-db") ==> ParseInt(StringText(value)).Some?)
    case ResizeDb(a, b) => ValidNum(a) && ValidNum(b)
    case ExpireMs(at) => at < Pow256(8)
    case ExpireSeconds(at) => at < Pow256(4)
    case SelectDb(db) => ValidNum(db)
    case Key(typeByte, key, _, _) => typeByte < 244 && ValidString(key) && Decodes(i, cfg, decode)
  }

  ghost predicate ValidItems(items: seq<Item>, cfg: Config, decode: ValueDecoder) {
    forall k :: 0 <= k < |items| ==> ValidItem(items[k], cfg, decode)
  }

  // ---- Encoding ------------------------------------------------------------------------------

  function PutPart(p: Part, rest: bytes): bytes
    requires ValidPart(p)
  {
    match p
    case Number(signed, n) => [if signed then 1 else 2] + PutNum(n, rest)
    case Float(text) => [3] + ([|text|] + (text + rest))
    case FloatMarker(b) => [3] + ([b] + rest)
    case Double(b) => [4] + (b + rest)
    case Text(s) => [5] + PutString(s, rest)
  }

  function PutParts(parts: seq<Part>, rest: bytes): bytes
    requires forall k :: 0 <= k < |parts| ==> ValidPart(parts[k])
  {
    if parts == [] then [0] + rest else PutPart(parts[0], PutParts(parts[1..], rest))
  }

  function TypeByte(i: Item): byte {
    match i
    case SlotInfo(_, _, _) => 244
    case Function2(_) => 245
    case ModuleAux(_, _, _, _) => 247
    case Idle(_) => 248
    case Freq(_) => 249
    case Aux(_, _) => 250
    case ResizeDb(_, _) => 251
    case ExpireMs(_) => 252
    case ExpireSeconds(_) => 253
    case SelectDb(_) => 254
    case Key(typeByte, _, _, _) => typeByte
  }

  /** The bytes behind the type byte. */
  ghost function PutBody(i: Item, rest: bytes, cfg: Config, decode: ValueDecoder): bytes
    requires ValidItem(i, cfg, decode)
  {
    match i
    case SlotInfo(a, b, c) => PutNum(a, PutNum(b, PutNum(c, rest)))
    case Function2(lib) => PutString(lib, rest)
    case ModuleAux(id, whenOpcode, when, parts) => PutNum(id, PutNum(whenOpcode, PutNum(when, PutParts(parts, rest))))
    case Idle(n) => PutNum(n, rest)
    case Freq(b) => [b] + rest
    case Aux(name, value) => PutString(name, PutString(value, rest))
    case ResizeDb(a, b) => PutNum(a, PutNum(b, rest))
    case ExpireMs(at) => Little(at, 8) + rest
    case ExpireSeconds(at) => Little(at, 4) + rest
    case SelectDb(db) => PutNum(db, rest)
    case Key(_, key, value, _) => PutString(key, value + rest)
  }

  /** The items from the k-th on, the end opcode, and whatever follows it. */
  ghost function PutFrom(items: seq<Item>, k: nat, tail: bytes, cfg: Config, decode: ValueDecoder): bytes
    requires k <= |items| && ValidItems(items, cfg, decode)
    decreases |items| - k
  {
    if k == |items| then [255] + tail
    else
      assert ValidItem(items[k], cfg, decode);
      [TypeByte(items[k])] + PutBody(items[k], PutFrom(items, k + 1, tail, cfg, decode), cfg, decode)
  }

  // ---- What is to be sent, found by looking back ---------------------------------------------

  /** The database of the last SELECTDB before item k. */
  function LastDb(items: seq<Item>, k: nat): int64
    requires k <= |items|
  {
    if k == 0 then 0
    else if items[k - 1].SelectDb? then Wrap(items[k - 1].db.n)
    else LastDb(items, k - 1)
  }

  /** The time left of the last expiry opcode behind the previous key; 0 for none. The clock is read
      when the opcode is. */
  function OwnExpiry(items: seq<Item>, k: nat, clock: nat -> int64): (left: int64)
    requires k <= |items|
    ensures left >= 0
  {
    if k == 0 then 0
    else match items[k - 1]
      case Key(_, _, _, _) => 0
      case ExpireMs(at) => Remaining(Signed(at, 8), clock(k - 1))
      case ExpireSeconds(at) => Remaining(at * 1000, clock(k - 1))
      case _ => OwnExpiry(items, k - 1, clock)
  }

  /** The last replication stream database announced before item k. */
  function LastStreamDb(items: seq<Item>, k: nat): int64
    requires k <= |items|
  {
    if k == 0 then 0
    else match items[k - 1]
      case Aux(name, value) =>
        if ValidString(name) && ValidString(value) && StringText(name) == Ascii("repl-stream-db")
           && ParseInt(StringText(value)).Some? then ParseInt(StringText(value)).value
        else LastStreamDb(items, k - 1)
      case _ => LastStreamDb(items, k - 1)
  }

  /** A value taken apart: each of its commands, then PEXPIRE if there is an expiry, all in one database. */
  function Apart(db: int64, expiry: int64, key: bytes, argvs: seq<Argv>): (r: seq<Entry>)
    ensures |r| == |argvs| + if expiry == 0 then 0 else 1
    ensures forall i :: 0 <= i < |r| ==> r[i].db == db
    ensures forall i :: 0 <= i < |argvs| ==> r[i].argv == argvs[i]
    ensures expiry != 0 ==> r[|argvs|].argv == [Ascii("PEXPIRE"), key, Itoa(expiry)]
  {
    seq(|argvs| + (if expiry == 0 then 0 else 1), i requires 0 <= i < |argvs| + (if expiry == 0 then 0 else 1) =>
      Entry(db, if i < |argvs| then argvs[i] else [Ascii("PEXPIRE"), key, Itoa(expiry)]))
  }

  /** A value restored in one command; a time to live of 0 is none. */
  function Whole(db: int64, expiry: int64, key: bytes, dump: bytes, rewrite: bool): Entry {
    Entry(db, [Ascii("RESTORE"), key, Itoa(expiry), dump] + if rewrite then [Ascii("replace")] else [])
  }

  /** The entries of a key: its sealed dump, of eleven bytes more than the value, if that is not too large. */
  function KeySent(cfg: Config, db: int64, expiry: int64, typeByte: byte, key: bytes, value: bytes, argvs: seq<Argv>)
    : seq<Entry>
  {
    if |value| + 11 > cfg.maxBulk then Apart(db, expiry, key, argvs)
    else [Whole(db, expiry, key, CreateValueDump(typeByte, value), cfg.rewrite)]
  }

  lemma KeySentIs(cfg: Config, db: int64, expiry: int64, typeByte: byte, key: bytes, value: bytes, argvs: seq<Argv>)
    requires expiry >= 0
    ensures KeyEntries(cfg, db, expiry, typeByte, key, value, argvs) == KeySent(cfg, db, expiry, typeByte, key, value, argvs)
  {
    hide CreateValueDump, Itoa;
    ApartIs(db, expiry, key, argvs);
  }

  lemma ApartIs(db: int64, expiry: int64, key: bytes, argvs: seq<Argv>)
    ensures InDb(db, argvs) + (if expiry != 0 then [Entry(db, PExpire(key, expiry))] else []) == Apart(db, expiry, key, argvs)
  {
    hide Itoa;
  }

  /** The entries item k gives rise to. */
  function SentBy(items: seq<Item>, k: nat, clock: nat -> int64, cfg: Config): seq<Entry>
    requires k < |items|
  {
    match items[k]
    case Function2(lib) =>
      if ValidString(lib) then [Entry(0, [Ascii("function"), Ascii("load"), Ascii("replace"), StringText(lib)])] else []
    case Aux(name, value) =>
      if ValidString(name) && ValidString(value) && StringText(name) == Ascii("lua") then
        [Entry(0, [Ascii("script"), Ascii("load"), StringText(value)])]
      else []
    case Key(typeByte, key, value, argvs) =>
      if ValidString(key) then
        KeySent(cfg, LastDb(items, k), OwnExpiry(items, k, clock), typeByte, StringText(key), value, argvs)
      else []
    case _ => []
  }

  function SentFrom(items: seq<Item>, k: nat, clock: nat -> int64, cfg: Config): seq<Entry>
    requires k <= |items|
    decreases |items| - k
  {
    if k == |items| then [] else SentBy(items, k, clock, cfg) + SentFrom(items, k + 1, clock, cfg)
  }

  function LoaderAt(items: seq<Item>, k: nat, clock: nat -> int64): Loader
    requires k <= |items|
  {
    Loader(LastDb(items, k), OwnExpiry(items, k, clock), LastStreamDb(items, k))
  }

  // ---- One item is one turn ------------------------------------------------------------------

  lemma Opcode(n: nat, rest: bytes)
    requires n < 0x40
    ensures DecodeLength([n] + rest) == Some((n, rest))
  {
    LengthRoundTrip(n, Len6, rest);
  }

  lemma FloatBack(p: Part, rest: bytes)
    requires ValidPart(p) && (p.Float? || p.FloatMarker?)
    ensures SkipFloat(PutPart(p, rest)[1..]) == Some((0, rest))
  {
    hide DecodeBytes, DecodeByte;
    match p
    case Float(text) =>
      assert PutPart(p, rest)[1..] == [|text|] + (text + rest);
      ByteAppend(|text|, text + rest);
      BytesAppend(text, rest);
    case FloatMarker(b) =>
      assert PutPart(p, rest)[1..] == [b] + rest;
      ByteAppend(b, rest);
      BytesAppend([], rest);
      assert [] + rest == rest;
  }

  /** One piece is one turn of the inner loop. */
  lemma PartBack(p: Part, rest: bytes)
    requires ValidPart(p)
    ensures SkipModule(PutPart(p, rest)) == SkipModule(rest)
  {
    hide DecodeLength, DecodeBytes, DecodeString, SkipFloat, PutNum, PutString, ValidNum, ValidString;
    match p
    case Number(signed, n) =>
      var opcode := if signed then 1 else 2;
      assert PutPart(p, rest) == [opcode] + PutNum(n, rest);
      Opcode(opcode, PutNum(n, rest));
      OneNum(n, rest);
    case Float(text) =>
      Opcode(3, [|text|] + (text + rest));
      FloatBack(p, rest);
      assert PutPart(p, rest)[1..] == [|text|] + (text + rest);
    case FloatMarker(b) =>
      Opcode(3, [b] + rest);
      FloatBack(p, rest);
      assert PutPart(p, rest)[1..] == [b] + rest;
    case Double(b) =>
      Opcode(4, b + rest);
      BytesAppend(b, rest);
    case Text(s) =>
      Opcode(5, PutString(s, rest));
      NameBack(s, rest);
  }

  lemma {:induction false} PartsBack(parts: seq<Part>, rest: bytes)
    requires forall k :: 0 <= k < |parts| ==> ValidPart(parts[k])
    ensures SkipModule(PutParts(parts, rest)) == Some((0, rest))
    decreases parts
  {
    hide SkipModule, PutPart, ValidPart;
    if parts == [] {
      ModuleEnd(rest);
    } else {
      PartBack(parts[0], PutParts(parts[1..], rest));
      PartsBack(parts[1..], rest);
    }
  }

  lemma ModuleEnd(rest: bytes)
    ensures SkipModule([0] + rest) == Some((0, rest))
  {
    hide DecodeLength;
    Opcode(0, rest);
  }

  lemma TwoNums(a: Num, b: Num, rest: bytes)
    requires ValidNum(a) && ValidNum(b)
    ensures SkipLengths(PutNum(a, PutNum(b, rest)), 2) == Some((0, rest))
  {
    hide DecodeLength, PutNum, ValidNum;
    NumBack(a, PutNum(b, rest));
    OneNum(b, rest);
  }

  lemma ThreeNums(a: Num, b: Num, c: Num, rest: bytes)
    requires ValidNum(a) && ValidNum(b) && ValidNum(c)
    ensures SkipLengths(PutNum(a, PutNum(b, PutNum(c, rest))), 3) == Some((0, rest))
  {
    hide DecodeLength, PutNum, ValidNum;
    NumBack(a, PutNum(b, PutNum(c, rest)));
    TwoNums(b, c, rest);
  }

  /** The opcodes that only skip lengths or bytes. */
  lemma SkipBack(i: Item, rest: bytes, ld: Loader, now: int64, cfg: Config, decode: ValueDecoder)
    requires ValidItem(i, cfg, decode) && (i.SlotInfo? || i.ModuleAux? || i.Idle? || i.Freq? || i.ResizeDb?)
    ensures OneTurn(PutBody(i, rest, cfg, decode), TypeByte(i), ld, now, cfg, decode) == Some(Go(ld, [], rest))
  {
    hide DecodeByte, SkipLengths, SkipModule, PutNum, PutParts, ValidNum, ValidPart, AuxTurn, KeyTurn;
    match i
    case SlotInfo(a, b, c) => ThreeNums(a, b, c, rest);
    case ModuleAux(id, whenOpcode, when, parts) =>
      ThreeNums(id, whenOpcode, when, PutParts(parts, rest));
      PartsBack(parts, rest);
    case Idle(n) => OneNum(n, rest);
    case Freq(b) => ByteAppend(b, rest);
    case ResizeDb(a, b) => TwoNums(a, b, rest);
  }

  /** The opcodes that set a field of the loader, or send a library or a script. */
  lemma FieldBack(i: Item, rest: bytes, ld: Loader, now: int64, cfg: Config, decode: ValueDecoder)
    requires ValidItem(i, cfg, decode)
    ensures i.Function2? ==>
              OneTurn(PutBody(i, rest, cfg, decode), TypeByte(i), ld, now, cfg, decode) ==
              Some(Go(ld, [Entry(0, [Ascii("function"), Ascii("load"), Ascii("replace"), StringText(i.lib)])], rest))
    ensures i.ExpireMs? ==>
              OneTurn(PutBody(i, rest, cfg, decode), TypeByte(i), ld, now, cfg, decode) ==
              Some(Go(ld.(expireMs := Remaining(Signed(i.at, 8), now)), [], rest))
    ensures i.ExpireSeconds? ==>
              OneTurn(PutBody(i, rest, cfg, decode), TypeByte(i), ld, now, cfg, decode) ==
              Some(Go(ld.(expireMs := Remaining(i.at * 1000, now)), [], rest))
    ensures i.SelectDb? ==>
              OneTurn(PutBody(i, rest, cfg, decode), TypeByte(i), ld, now, cfg, decode) ==
              Some(Go(ld.(db := Wrap(i.db.n)), [], rest))
  {
    hide DecodeString, DecodeLength, DecodeUint, PutString, PutNum, StringText, ValidString, ValidNum, Little, Pow256,
      Signed, Wrap, Remaining, AuxTurn, KeyTurn, SkipLengths, SkipModule, Decodes;
    if i.Function2? { NameBack(i.lib, rest); }
    if i.ExpireMs? { UintAppend(i.at, 8, rest); }
    if i.ExpireSeconds? { UintAppend(i.at, 4, rest); }
    if i.SelectDb? { NumBack(i.db, rest); }
  }

  lemma AuxBack(i: Item, rest: bytes, ld: Loader, cfg: Config, decode: ValueDecoder)
    requires ValidItem(i, cfg, decode) && i.Aux?
    ensures AuxTurn(PutBody(i, rest, cfg, decode), ld) ==
            if StringText(i.name) == Ascii("repl-stream-db") then
              Some(Go(ld.(streamDb := ParseInt(StringText(i.setting)).value), [], rest))
            else if StringText(i.name) == Ascii("lua") then
              Some(Go(ld, [Entry(0, [Ascii("script"), Ascii("load"), StringText(i.setting)])], rest))
            else Some(Go(ld, [], rest))
  {
    hide DecodeString, PutString, StringText, ValidString, ParseInt, Ascii;
    NameBack(i.name, PutString(i.setting, rest));
    NameBack(i.setting, rest);
  }

  lemma KeyBack(i: Item, rest: bytes, ld: Loader, cfg: Config, decode: ValueDecoder)
    requires ValidItem(i, cfg, decode) && i.Key?
    ensures KeyTurn(PutBody(i, rest, cfg, decode), i.typeByte, ld, cfg, decode) ==
            Some(Go(ld.(expireMs := 0),
                    KeyEntries(cfg, ld.db, ld.expireMs, i.typeByte, StringText(i.key), i.value, i.argvs), rest))
  {
    hide DecodeString, PutString, StringText, ValidString, KeyEntries;
    NameBack(i.key, i.value + rest);
    assert (i.value + rest)[..|i.value|] == i.value;
  }

  /** One item is one turn, and the loader keeps holding what looking back finds. */
  lemma ItemBack(items: seq<Item>, k: nat, rest: bytes, clock: nat -> int64, cfg: Config, decode: ValueDecoder)
    requires k < |items| && ValidItem(items[k], cfg, decode)
    ensures OneTurn(PutBody(items[k], rest, cfg, decode), TypeByte(items[k]), LoaderAt(items, k, clock), clock(k), cfg, decode)
            == Some(Go(LoaderAt(items, k + 1, clock), SentBy(items, k, clock, cfg), rest))
  {
    hide PutBody, StringText, ValidString, ValidNum, KeyEntries, KeySent, Remaining, Wrap, Signed, ParseInt, Ascii,
      AuxTurn, KeyTurn, SkipLengths, SkipModule, DecodeString, DecodeUint, DecodeLength, Pow256, Decodes, DecodeByte;
    var i, ld := items[k], LoaderAt(items, k, clock);
    match i
    case Key(_, _, _, _) =>
      KeyBack(i, rest, ld, cfg, decode);
      KeySentIs(cfg, ld.db, ld.expireMs, i.typeByte, StringText(i.key), i.value, i.argvs);
    case Aux(_, _) => AuxBack(i, rest, ld, cfg, decode);
    case Function2(_) => FieldBack(i, rest, ld, clock(k), cfg, decode);
    case ExpireMs(_) => FieldBack(i, rest, ld, clock(k), cfg, decode);
    case ExpireSeconds(_) => FieldBack(i, rest, ld, clock(k), cfg, decode);
    case SelectDb(_) => FieldBack(i, rest, ld, clock(k), cfg, decode);
    case _ => SkipBack(i, rest, ld, clock(k), cfg, decode);
  }

  lemma ParseOne(typeByte: byte, body: bytes, ld: Loader, clock: nat -> int64, k: nat, cfg: Config, decode: ValueDecoder)
    ensures Parse([typeByte] + body, ld, clock, k, cfg, decode) ==
            match OneTurn(body, typeByte, ld, clock(k), cfg, decode)
            case None => None
            case Some(Stop) => Some(([], ld))
            case Some(Go(next, sent, rest)) => Ahead(sent, Parse(rest, next, clock, k + 1, cfg, decode))
  {
    hide OneTurn;
    ByteAppend(typeByte, body);
  }

  /** For every sequence of opcodes, from item k on. */
  lemma {:induction false} ParseFrom(items: seq<Item>, k: nat, tail: bytes, clock: nat -> int64, cfg: Config,
                                     decode: ValueDecoder)
    requires k <= |items| && ValidItems(items, cfg, decode)
    ensures Parse(PutFrom(items, k, tail, cfg, decode), LoaderAt(items, k, clock), clock, k, cfg, decode) ==
            Some((SentFrom(items, k, clock, cfg), LoaderAt(items, |items|, clock)))
    decreases |items| - k
  {
    hide OneTurn, Parse, PutBody, LoaderAt, SentBy, ValidItem, TypeByte;
    var ld := LoaderAt(items, k, clock);
    if k == |items| {
      ParseOne(255, tail, ld, clock, k, cfg, decode);
      EofTurn(tail, ld, clock(k), cfg, decode);
    } else {
      assert ValidItem(items[k], cfg, decode);
      var rest := PutFrom(items, k + 1, tail, cfg, decode);
      ParseOne(TypeByte(items[k]), PutBody(items[k], rest, cfg, decode), ld, clock, k, cfg, decode);
      ItemBack(items, k, rest, clock, cfg, decode);
      ParseFrom(items, k + 1, tail, clock, cfg, decode);
    }
  }

  lemma EofTurn(tail: bytes, ld: Loader, now: int64, cfg: Config, decode: ValueDecoder)
    ensures OneTurn(tail, 255, ld, now, cfg, decode) == Some(Stop)
  {
  }

  /** The opcode of functions as Redis 7.0 release candidates wrote them, 246, panics wherever it comes. */
  lemma OldFunctionPanics(tail: bytes, ld: Loader, clock: nat -> int64, k: nat, cfg: Config, decode: ValueDecoder)
    ensures Parse([246] + tail, ld, clock, k, cfg, decode) == None
  {
    ParseOne(246, tail, ld, clock, k, cfg, decode);
  }

  /** For every opcode sequence and every course of the clock, each key is sent with the database of the
      last SELECTDB, with its own expiry and nobody else's, and with exactly its raw value bytes; the loop
      ends at the end opcode and reports the announced stream database. */
  lemma ParseRoundTrip(items: seq<Item>, tail: bytes, clock: nat -> int64, cfg: Config, decode: ValueDecoder)
    requires ValidItems(items, cfg, decode)
    ensures Parse(PutFrom(items, 0, tail, cfg, decode), Loader(0, 0, 0), clock, 0, cfg, decode) ==
            Some((SentFrom(items, 0, clock, cfg),
                  Loader(LastDb(items, |items|), OwnExpiry(items, |items|, clock), LastStreamDb(items, |items|))))
  {
    hide Parse, PutFrom, SentFrom, ValidItems;
    ParseFrom(items, 0, tail, clock, cfg, decode);
  }
}
