/** parseRDBEntry and createValueDump of rdb/rdb.go: the opcode loop over an RDB file. */
module RdbLoop {
  import opened Bytes
  import opened Decimal
  import opened CommandStream
  import opened RdbPrimitives
  import opened RdbString
  import Crc64

  const SLOT_INFO: byte := 244
  const FUNCTION_2: byte := 245
  const FUNCTION: byte := 246
  const MODULE_AUX: byte := 247
  const IDLE: byte := 248
  const FREQ: byte := 249
  const AUX: byte := 250
  const RESIZE_DB: byte := 251
  const EXPIRE_MS: byte := 252
  const EXPIRE: byte := 253
  const SELECT: byte := 254
  const EOF: byte := 255

  /** target_redis_proto_max_bulk_len, rdb_restore_command_behavior = rewrite, and the file's magic. */
  datatype Config = Config(maxBulk: nat, rewrite: bool, isValkey: bool)

  /** ParseObject and Rewrite: from the bytes behind a key to its commands. */
  type ValueDecoder = (bytes, byte, bytes, bool) -> Decoded<seq<Argv>>

  /** The fields of Loader that a turn of the loop reads. */
  datatype Loader = Loader(db: int64, expireMs: int64, streamDb: int64)

  // ---- One key -------------------------------------------------------------------------------

  /** Milliseconds left of an absolute expiry; what is past becomes 1. */
  function Remaining(at: int, now: int): (left: int64)
    ensures left >= 0
  {
    var left := Wrap(at - now);
    if left < 0 then 1 else left
  }

  /** createValueDump. */
  function CreateValueDump(typeByte: byte, value: bytes): bytes {
    var payload := [typeByte] + value + [6, 0];
    payload + AsBytes(Crc64.LittleEndian(Crc64.Crc(0, AsBits(payload)), 8))
  }

  function DumpSize(value: bytes): nat { 1 + |value| + 2 + 8 }

  function InDb(db: int64, argvs: seq<Argv>): seq<Entry> {
    seq(|argvs|, k requires 0 <= k < |argvs| => Entry(db, argvs[k]))
  }

  function Restore(key: bytes, expireMs: int, dump: bytes, rewrite: bool): Argv {
    [Ascii("RESTORE"), key, Itoa(if expireMs > 0 then expireMs else 0), dump]
    + if rewrite then [Ascii("replace")] else []
  }

  function PExpire(key: bytes, expireMs: int): Argv { [Ascii("PEXPIRE"), key, Itoa(expireMs)] }

  /** The entries of one key: RESTORE of the sealed raw value, or its commands when that is too large. */
  function KeyEntries(cfg: Config, db: int64, expireMs: int64, typeByte: byte, key: bytes, value: bytes,
                      argvs: seq<Argv>): seq<Entry>
  {
    if DumpSize(value) > cfg.maxBulk then
      InDb(db, argvs) + if expireMs != 0 then [Entry(db, PExpire(key, expireMs))] else []
    else [Entry(db, Restore(key, expireMs, CreateValueDump(typeByte, value), cfg.rewrite))]
  }

  // ---- The decoder ---------------------------------------------------------------------------

  /** ReadFloat: three markers, or a counted decimal. */
  function SkipFloat(s: bytes): (r: Decoded<int>)
    ensures r.Some? ==> |r.value.1| <= |s|
  {
    var (n, rest) :- DecodeByte(s);
    var (_, rest) :- DecodeBytes(rest, if n >= 253 then 0 else n);
    Some((0, rest))
  }

  /** The pieces of a module's auxiliary data, up to its end opcode. */
  function SkipModule(s: bytes): (r: Decoded<int>)
    ensures r.Some? ==> |r.value.1| < |s|
    decreases |s|
  {
    var (opcode, rest) :- DecodeLength(s);
    if opcode == 0 then Some((0, rest))
    else
      var (_, next) :-
        if opcode == 1 || opcode == 2 then SkipLengths(rest, 1)
        else if opcode == 3 then SkipFloat(rest)
        else if opcode == 4 then (var (_, r) :- DecodeBytes(rest, 8); Some((0, r)))
        else if opcode == 5 then (var (_, r) :- DecodeString(rest); Some((0, r)))
        else None;
      SkipModule(next)
  }

  datatype Turn = Stop | Go(loader: Loader, sent: seq<Entry>, rest: bytes)

  function AuxTurn(s: bytes, ld: Loader): (r: Option<Turn>)
    ensures r.Some? && r.value.Go? ==> |r.value.rest| <= |s|
  {
    var (name, rest) :- DecodeString(s);
    var (value, rest) :- DecodeString(rest);
    if name == Ascii("repl-stream-db") then
      var db :- ParseInt(value);
      Some(Go(ld.(streamDb := db), [], rest))
    else if name == Ascii("lua") then
      Some(Go(ld, [Entry(0, [Ascii("script"), Ascii("load"), value])], rest))
    else Some(Go(ld, [], rest))
  }

  /** A key: everything its value decoder takes from the reader is captured on the way. */
  function KeyTurn(s: bytes, typeByte: byte, ld: Loader, cfg: Config, decode: ValueDecoder): (r: Option<Turn>)
    ensures r.Some? && r.value.Go? ==> |r.value.rest| <= |s|
  {
    var (key, rest) :- DecodeString(s);
    var (argvs, next) :- decode(rest, typeByte, key, cfg.isValkey);
    if |next| > |rest| then None
    else
      var value := rest[..|rest| - |next|];
      Some(Go(ld.(expireMs := 0), KeyEntries(cfg, ld.db, ld.expireMs, typeByte, key, value, argvs), next))
  }

  function Skipped(ld: Loader, d: Decoded<int>): Option<Turn> {
    var (_, rest) :- d;
    Some(Go(ld, [], rest))
  }

  /** One turn of the loop behind its type byte; now is what the clock shows. */
  function OneTurn(s: bytes, typeByte: byte, ld: Loader, now: int64, cfg: Config, decode: ValueDecoder)
    : (r: Option<Turn>)
    ensures r.Some? && r.value.Go? ==> |r.value.rest| <= |s|
  {
    if typeByte == SLOT_INFO then Skipped(ld, SkipLengths(s, 3))
    else if typeByte == FUNCTION then None
    else if typeByte == FUNCTION_2 then
      var (lib, rest) :- DecodeString(s);
      Some(Go(ld, [Entry(0, [Ascii("function"), Ascii("load"), Ascii("replace"), lib])], rest))
    else if typeByte == MODULE_AUX then
      var (_, rest) :- SkipLengths(s, 3);
      Skipped(ld, SkipModule(rest))
    else if typeByte == IDLE then Skipped(ld, SkipLengths(s, 1))
    else if typeByte == FREQ then
      var (_, rest) :- DecodeByte(s);
      Some(Go(ld, [], rest))
    else if typeByte == AUX then AuxTurn(s, ld)
    else if typeByte == RESIZE_DB then Skipped(ld, SkipLengths(s, 2))
    else if typeByte == EXPIRE_MS then
      var (at, rest) :- DecodeUint(s, 8);
      Some(Go(ld.(expireMs := Remaining(Signed(at, 8), now)), [], rest))
    else if typeByte == EXPIRE then
      var (at, rest) :- DecodeUint(s, 4);
      Some(Go(ld.(expireMs := Remaining(at * 1000, now)), [], rest))
    else if typeByte == SELECT then
      var (db, rest) :- DecodeLength(s);
      Some(Go(ld.(db := Wrap(db)), [], rest))
    else if typeByte == EOF then Some(Stop)
    else KeyTurn(s, typeByte, ld, cfg, decode)
  }

  /** The loop, from turn k on: the entries sent and the loader at the end; None is a panic. */
  function Parse(s: bytes, ld: Loader, clock: nat -> int64, k: nat, cfg: Config, decode: ValueDecoder)
    : Option<(seq<Entry>, Loader)>
    decreases |s|
  {
    var (typeByte, rest) :- DecodeByte(s);
    var turn :- OneTurn(rest, typeByte, ld, clock(k), cfg, decode);
    match turn
    case Stop => Some(([], ld))
    case Go(next, sent, rest) =>
      var (more, last) :- Parse(rest, next, clock, k + 1, cfg, decode);
      Some((sent + more, last))
  }

  // ---- The loop in its own form --------------------------------------------------------------

  /** The Loader of the source, with the channel as the entries sent so far. */
  class RdbLoader {
    const rd: Reader
    const cfg: Config
    var nowDBId: int64
    var expireMs: int64
    var replStreamDbId: int64
    var ch: seq<Entry>

    constructor (rd: Reader, cfg: Config)
      ensures this.rd == rd && this.cfg == cfg && View() == Loader(0, 0, 0) && ch == []
    {
      this.rd, this.cfg := rd, cfg;
      nowDBId, expireMs, replStreamDbId, ch := 0, 0, 0, [];
    }

    function View(): Loader
      reads this
    {
      Loader(nowDBId, expireMs, replStreamDbId)
    }

    /** The effect of one turn on fields, channel and reader. */
    ghost predicate Took(turn: Option<Turn>, ok: bool, more: bool, was: seq<Entry>, ld: Loader)
      reads this, rd
    {
      match turn
      case None => !ok
      case Some(Stop) => ok && !more && ch == was && View() == ld
      case Some(Go(next, sent, rest)) => ok && more && View() == next && ch == was + sent && rd.rest == rest
    }

    method SkipLength() returns (ok: bool)
      modifies rd
      ensures match DecodeLength(old(rd.rest)) case None => !ok case Some(d) => ok && rd.rest == d.1
    {
      hide DecodeLength;
      var n := ReadLength(rd);
      return n.Some?;
    }

    method SkipMany(n: nat) returns (ok: bool)
      modifies rd
      ensures match SkipLengths(old(rd.rest), n) case None => !ok case Some(d) => ok && rd.rest == d.1
      decreases n
    {
      hide DecodeLength;
      if n == 0 { return true; }
      ok := SkipLength();
      if ok { ok := SkipMany(n - 1); }
    }

    /** The opcode loop of a module's auxiliary data. */
    method SkipModuleAux() returns (ok: bool)
      modifies rd
      ensures match SkipModule(old(rd.rest)) case None => !ok case Some(d) => ok && rd.rest == d.1
      decreases |rd.rest|
    {
      hide DecodeLength, DecodeString, SkipFloat, SkipLengths, DecodeBytes;
      var opcode := ReadLength(rd);
      if opcode.None? { return false; }
      if opcode.value == 0 { return true; }
      if opcode.value == 1 || opcode.value == 2 {
        ok := SkipMany(1);
      } else if opcode.value == 3 {
        ok := SkipOneFloat();
      } else if opcode.value == 4 {
        var b := ReadBytes(rd, 8);
        ok := b.Some?;
      } else if opcode.value == 5 {
        var t := ReadString(rd);
        ok := t.Some?;
      } else {
        return false;
      }
      if ok { ok := SkipModuleAux(); }
    }

    method SkipOneFloat() returns (ok: bool)
      modifies rd
      ensures match SkipFloat(old(rd.rest)) case None => !ok case Some(d) => ok && rd.rest == d.1
    {
      var n := ReadByte(rd);
      if n.None? { return false; }
      var b := ReadBytes(rd, if n.value >= 253 then 0 else n.value);
      return b.Some?;
    }

    method TakeAux() returns (ok: bool)
      modifies this, rd
      ensures Took(AuxTurn(old(rd.rest), old(View())), ok, true, old(ch), old(View()))
    {
      hide DecodeString, ParseInt;
      var key := ReadString(rd);
      if key.None? { return false; }
      var value := ReadString(rd);
      if value.None? { return false; }
      if key.value == Ascii("repl-stream-db") {
        var db := ParseInt(value.value);
        if db.None? { return false; }
        replStreamDbId := db.value;
      } else if key.value == Ascii("lua") {
        ch := ch + [Entry(0, [Ascii("script"), Ascii("load"), value.value])];
      }
      return true;
    }

    method TakeKey(typeByte: byte, decode: ValueDecoder) returns (ok: bool)
      modifies this, rd
      ensures Took(KeyTurn(old(rd.rest), typeByte, old(View()), cfg, decode), ok, true, old(ch), old(View()))
    {
      hide DecodeString, CreateValueDump, InDb, PExpire, Itoa;
      var key := ReadString(rd);
      if key.None? { return false; }
      var before := rd.rest;
      var d := decode(before, typeByte, key.value, cfg.isValkey);
      if d.None? || |d.value.1| > |before| { return false; }
      rd.rest := d.value.1;
      var value := before[..|before| - |rd.rest|];
      ghost var was, ld := ch, View();
      var dumpSize := 1 + |value| + 2 + 8;
      if dumpSize > cfg.maxBulk {
        ch := ch + InDb(nowDBId, d.value.0);
        assert ch == was + (InDb(nowDBId, d.value.0) + []);
        if expireMs != 0 {
          ch := ch + [Entry(nowDBId, PExpire(key.value, expireMs))];
          assert ch == was + (InDb(nowDBId, d.value.0) + [Entry(nowDBId, PExpire(key.value, expireMs))]);
        }
      } else {
        var pttl := 0;
        if expireMs > 0 { pttl := expireMs; }
        var argv := [Ascii("RESTORE"), key.value, Itoa(pttl), CreateValueDump(typeByte, value)];
        if cfg.rewrite { argv := argv + [Ascii("replace")]; }
        assert argv == Restore(key.value, expireMs, CreateValueDump(typeByte, value), cfg.rewrite);
        ch := ch + [Entry(nowDBId, argv)];
      }
      assert ch == was + KeyEntries(cfg, ld.db, ld.expireMs, typeByte, key.value, value, d.value.0);
      expireMs := 0;
      return true;
    }

    /** The switch on the type byte; more is false at the end of the file. */
    method TakeTurn(typeByte: byte, now: int64, decode: ValueDecoder) returns (ok: bool, more: bool)
      modifies this, rd
      ensures Took(OneTurn(old(rd.rest), typeByte, old(View()), now, cfg, decode), ok, more, old(ch), old(View()))
    {
      hide DecodeLength, DecodeString, DecodeUint, SkipLengths, SkipModule, AuxTurn, KeyTurn, Remaining, Signed, Wrap;
      more := true;
      if typeByte == SLOT_INFO {
        ok := SkipMany(3);
      } else if typeByte == FUNCTION {
        ok := false;
      } else if typeByte == FUNCTION_2 {
        var lib := ReadString(rd);
        if lib.None? { return false, true; }
        ch := ch + [Entry(0, [Ascii("function"), Ascii("load"), Ascii("replace"), lib.value])];
        ok := true;
      } else if typeByte == MODULE_AUX {
        ok := SkipMany(3);
        if ok { ok := SkipModuleAux(); }
      } else if typeByte == IDLE {
        ok := SkipMany(1);
      } else if typeByte == FREQ {
        var b := ReadByte(rd);
        ok := b.Some?;
      } else if typeByte == AUX {
        ok := TakeAux();
      } else if typeByte == RESIZE_DB {
        ok := SkipMany(2);
      } else if typeByte == EXPIRE_MS {
        var at := ReadUint(rd, 8);
        if at.None? { return false, true; }
        expireMs := Remaining(Signed(at.value, 8), now);
        ok := true;
      } else if typeByte == EXPIRE {
        var at := ReadUint(rd, 4);
        if at.None? { return false, true; }
        expireMs := Remaining(at.value * 1000, now);
        ok := true;
      } else if typeByte == SELECT {
        var db := ReadLength(rd);
        if db.None? { return false, true; }
        nowDBId := Wrap(db.value);
        ok := true;
      } else if typeByte == EOF {
        ok, more := true, false;
      } else {
        ok := TakeKey(typeByte, decode);
      }
    }

    /** parseRDBEntry, on a reader at the first opcode. */
    method ParseRdbEntry(clock: nat -> int64, decode: ValueDecoder) returns (ok: bool)
      modifies this, rd
      ensures match Parse(old(rd.rest), old(View()), clock, 0, cfg, decode)
              case None => !ok
              case Some(d) => ok && ch == old(ch) + d.0 && View() == d.1
    {
      hide OneTurn;
      var k := 0;
      while true
        invariant k >= 0
        invariant Ahead(ch, Parse(rd.rest, View(), clock, k, cfg, decode)) ==
                  Ahead(old(ch), Parse(old(rd.rest), old(View()), clock, 0, cfg, decode))
        decreases |rd.rest|
      {
        ghost var s, ld, was := rd.rest, View(), ch;
        ParseStep(was, s, ld, clock, k, cfg, decode);
        var typeByte := ReadByte(rd);
        if typeByte.None? { return false; }
        var turned, more := TakeTurn(typeByte.value, clock(k), decode);
        if !turned { return false; }
        if !more {
          assert ch + [] == ch;
          return true;
        }
        k := k + 1;
      }
    }
  }

  /** The entries still to come behind those already sent. */
  function Ahead(sent: seq<Entry>, d: Option<(seq<Entry>, Loader)>): Option<(seq<Entry>, Loader)> {
    match d
    case None => None
    case Some((more, ld)) => Some((sent + more, ld))
  }

  lemma ParseStep(was: seq<Entry>, s: bytes, ld: Loader, clock: nat -> int64, k: nat, cfg: Config, decode: ValueDecoder)
    ensures s == [] ==> Parse(s, ld, clock, k, cfg, decode) == None
    ensures s != [] ==>
              match OneTurn(s[1..], s[0], ld, clock(k), cfg, decode)
              case None => Parse(s, ld, clock, k, cfg, decode) == None
              case Some(Stop) => Parse(s, ld, clock, k, cfg, decode) == Some(([], ld))
              case Some(Go(next, sent, rest)) =>
                Ahead(was, Parse(s, ld, clock, k, cfg, decode)) ==
                Ahead(was + sent, Parse(rest, next, clock, k + 1, cfg, decode))
  {
    hide OneTurn;
    if s != [] {
      var turn := OneTurn(s[1..], s[0], ld, clock(k), cfg, decode);
      if turn.Some? && turn.value.Go? {
        var d := Parse(turn.value.rest, turn.value.loader, clock, k + 1, cfg, decode);
        if d.Some? { assert was + turn.value.sent + d.value.0 == was + (turn.value.sent + d.value.0); }
      }
    }
  }

  // ---- Dumps ---------------------------------------------------------------------------------

  lemma BitsBack(s: seq<bv8>)
    ensures AsBits(AsBytes(s)) == s
  {
    forall i | 0 <= i < |s| ensures AsBits(AsBytes(s))[i] == s[i] { ByteBack(s[i]); }
  }

  lemma ByteBack(b: bv8)
    ensures (b as int) as bv8 == b
  {
  }

  lemma BitsAppend(a: bytes, b: bytes)
    ensures AsBits(a + b) == AsBits(a) + AsBits(b)
  {
  }

  lemma EightBytes(crc: bv64)
    ensures |Crc64.LittleEndian(crc, 8)| == 8
  {
    SealLength(crc, 8);
  }

  lemma {:induction false} SealLength(crc: bv64, n: nat)
    ensures |Crc64.LittleEndian(crc, n)| == n
    decreases n
  {
    if n > 0 { SealLength(Crc64.Down(crc), n - 1); }
  }

  /** Every dump has checksum zero over its full length, the size the limit is checked against, and the
      raw value between its type byte and its footer. */
  lemma DumpSealed(typeByte: byte, value: bytes)
    ensures var dump := CreateValueDump(typeByte, value);
            && Crc64.Crc(0, AsBits(dump)) == 0
            && |dump| == DumpSize(value)
            && dump[0] == typeByte && dump[1..|dump| - 10] == value && dump[|dump| - 10..|dump| - 8] == [6, 0]
  {
    hide Crc64.Crc, Crc64.LittleEndian, AsBits, AsBytes;
    var payload := [typeByte] + value + [6, 0];
    var crc := Crc64.Crc(0, AsBits(payload));
    var seal := AsBytes(Crc64.LittleEndian(crc, 8));
    EightBytes(crc);
    BitsAppend(payload, seal);
    BitsBack(Crc64.LittleEndian(crc, 8));
    Crc64.SealedIsZero(AsBits(payload));
    var dump := payload + seal;
    assert dump[1..|dump| - 10] == value;
  }

  /** The remaining time is right, and 1 for what is past, except that an expiry at this very
      millisecond becomes no expiry at all. */
  lemma RemainingIsZero(at: nat, now: nat)
    requires at <= MAX_INT64 && now <= MAX_INT64
    ensures Remaining(at, now) == (if at < now then 1 else at - now)
    ensures Remaining(at, now) == 0 <==> at == now
  {
  }
}
